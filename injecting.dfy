/**
 * The injector side that the binding core sees: the stub injector of the
 * tests and the future injector, a cell that is filled once after bindings
 * that depend on it have been declared.
 */
module Injecting {
  import opened Wrappers
  import opened Errors
  import opened Values

  /** The prefix of every value the stub injector provides. */
  const ProvidedPrefix: string := "a-provided-"

  /** `FakeInjector.provide(cls)`: a string tagged with the class name. */
  function FakeProvide(cls: ClassRef): PyValue
  {
    Text(ProvidedPrefix + cls.name)
  }

  /** The stub provides a string: the fixed prefix followed by exactly the class name. */
  lemma FakeProvideForm(cls: ClassRef)
    ensures FakeProvide(cls).Text? && |FakeProvide(cls).s| == |ProvidedPrefix| + |cls.name|
    ensures FakeProvide(cls).s[..|ProvidedPrefix|] == "a-provided-"
    ensures FakeProvide(cls).s[|ProvidedPrefix|..] == cls.name
  {
  }

  /** The stub's results tell classes apart exactly by their names. */
  lemma FakeProvideIdentifiesClass(a: ClassRef, b: ClassRef)
    ensures FakeProvide(a) == FakeProvide(b) <==> a.name == b.name
  {
    if FakeProvide(a) == FakeProvide(b) {
      FakeProvideForm(a);
      FakeProvideForm(b);
      calc {
        a.name;
        FakeProvide(a).s[|ProvidedPrefix|..];
        FakeProvide(b).s[|ProvidedPrefix|..];
        b.name;
      }
    }
  }

  /** `_FutureInjector`: a write-once reference to an injector. */
  class FutureInjector {
    var injector: Option<Injector>

    /** A future injector starts with no backing injector. */
    constructor ()
      ensures injector.None?
    {
      injector := None;
    }

    /**
     * `set_injector(injector)`: fills the cell. A second call is a lifecycle
     * error and leaves the first injector in place.
     */
    method SetInjector(inj: Injector) returns (outcome: Outcome<Error>)
      modifies this
      ensures old(injector).None? ==> outcome == Pass && injector == Some(inj)
      ensures old(injector).Some? ==> outcome == Fail(InjectorAlreadySet) && injector == old(injector)
    {
      if injector.None? {
        injector := Some(inj);
        outcome := Pass;
      } else {
        outcome := Fail(InjectorAlreadySet);
      }
    }

    /**
     * `provide(cls)`: delegates to the backing injector; before the cell is
     * filled it fails instead of returning a default.
     */
    function Provide(cls: ClassRef): (r: Result<PyValue, Error>)
      reads this
      ensures r.Err? <==> injector.None?
      ensures r.Err? ==> r.error == InjectorNotSet
      ensures r.Ok? ==> r.value == injector.value(cls)
    {
      match injector
      case None => Err(InjectorNotSet)
      case Some(inj) => Ok(inj(cls))
    }
  }
}
