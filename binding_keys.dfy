/**
 * Binding keys: the identity of a requested dependency. Only the variant
 * without an annotation is modelled; it is a value identified by its arg name.
 */
module BindingKeys {

  /** `BindingKeyWithoutAnnotation(arg_name)`; equality is structural. */
  datatype BindingKey = WithoutAnnotation(argName: string)

  /** The prefix of every key's string form. */
  const StrPrefix: string := "the arg name "

  /** `str(key)`: the fixed prefix followed by exactly the arg name. */
  function Str(key: BindingKey): (r: string)
    ensures |r| == |StrPrefix| + |key.argName|
    ensures r[..|StrPrefix|] == "the arg name "
    ensures r[|StrPrefix|..] == key.argName
  {
    StrPrefix + key.argName
  }

  /**
   * Equality and string form agree with each other and with the arg name:
   * two keys are equal, and have equal string forms, exactly when they are
   * built from the same arg name.
   */
  lemma EqualityAgreesWithStr(a: string, b: string)
    ensures WithoutAnnotation(a) == WithoutAnnotation(b) <==> a == b
    ensures Str(WithoutAnnotation(a)) == Str(WithoutAnnotation(b)) <==> a == b
  {
    if Str(WithoutAnnotation(a)) == Str(WithoutAnnotation(b)) {
      calc {
        a;
        Str(WithoutAnnotation(a))[|StrPrefix|..];
        Str(WithoutAnnotation(b))[|StrPrefix|..];
        b;
      }
    }
  }
}
