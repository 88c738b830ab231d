/**
 * `new_binding_mapping` and `BindingMapping.get_instance`: an index from
 * binding keys to the implicit bindings that carry them, and lookup with
 * collision and missing-binding detection deferred to lookup time.
 */
module BindingMappings {
  import opened Wrappers
  import opened BindingKeys
  import opened Errors
  import opened Values
  import opened Providers

  /** The bindings in `bs` that carry `key`, in their original order. */
  function Matching(bs: seq<Binding>, key: BindingKey): (r: seq<Binding>)
    ensures |r| <= |bs|
    ensures forall i :: 0 <= i < |r| ==> r[i].key == key
  {
    if bs == [] then []
    else Matching(bs[..|bs| - 1], key) + (if bs[|bs| - 1].key == key then [bs[|bs| - 1]] else [])
  }

  /** The resolved index: for each key with at least one binding, those bindings. */
  datatype BindingMapping = BindingMapping(index: map<BindingKey, seq<Binding>>)

  /**
   * `new_binding_mapping([], implicit_bindings)`: indexes every binding under
   * its key. Keys that several bindings share are kept, all of them, to be
   * reported only when looked up.
   */
  function NewBindingMapping(implicitBindings: seq<Binding>): (m: BindingMapping)
    ensures forall key :: key in m.index <==> Matching(implicitBindings, key) != []
    ensures forall key :: key in m.index ==> m.index[key] == Matching(implicitBindings, key)
  {
    if implicitBindings == [] then BindingMapping(map[])
    else
      var prefix := NewBindingMapping(implicitBindings[..|implicitBindings| - 1]).index;
      var b := implicitBindings[|implicitBindings| - 1];
      var existing := if b.key in prefix then prefix[b.key] else [];
      BindingMapping(prefix[b.key := existing + [b]])
  }

  /** What a successful lookup depends on: the state of the one provider it would call. */
  function LookupFootprint(m: BindingMapping, key: BindingKey): set<object>
  {
    if key in m.index && |m.index[key]| == 1 then Footprint(m.index[key][0].provider) else {}
  }

  /**
   * `get_instance(binding_key)`: calls the provider of the only binding for
   * the key, and fails when there is none or more than one.
   */
  function GetInstance(m: BindingMapping, key: BindingKey): (r: Result<PyValue, Error>)
    reads LookupFootprint(m, key)
    ensures r.Err? ==> r.error in {NothingInjectable(key), Ambiguous(key), InjectorNotSet}
  {
    var candidates := if key in m.index then m.index[key] else [];
    if |candidates| == 0 then Err(NothingInjectable(key))
    else if |candidates| == 1 then Invoke(candidates[0].provider)
    else Err(Ambiguous(key))
  }

  // ---------------------------------------------------------------------------
  // Lookup against the bindings the mapping was built from

  /**
   * The three outcomes of a lookup, by the number of bindings for the key:
   * none fails with NothingInjectable, exactly one yields its provider's
   * result, two or more fail with Ambiguous.
   */
  lemma LookupOutcomes(implicitBindings: seq<Binding>, key: BindingKey)
    ensures var m := NewBindingMapping(implicitBindings);
      var n := |Matching(implicitBindings, key)|;
      && (n == 0 <==> GetInstance(m, key) == Err(NothingInjectable(key)))
      && (n == 1 ==> GetInstance(m, key) == Invoke(Matching(implicitBindings, key)[0].provider))
      && (n >= 2 <==> GetInstance(m, key) == Err(Ambiguous(key)))
  {
    var m := NewBindingMapping(implicitBindings);
    if Matching(implicitBindings, key) != [] {
      assert key in m.index;
    }
  }

  /** A key carried by no binding is looked up in vain. */
  lemma {:induction false} MatchingEmptyIff(bs: seq<Binding>, key: BindingKey)
    ensures Matching(bs, key) == [] <==> forall i :: 0 <= i < |bs| ==> bs[i].key != key
  {
    if bs != [] {
      MatchingEmptyIff(bs[..|bs| - 1], key);
      var front := bs[..|bs| - 1];
      assert forall i :: 0 <= i < |front| ==> front[i] == bs[i];
    }
  }

  /** A key carried by exactly one binding, at index `j`, matches just that binding. */
  lemma {:induction false} MatchingUnique(bs: seq<Binding>, j: nat)
    requires j < |bs|
    requires forall i :: 0 <= i < |bs| && i != j ==> bs[i].key != bs[j].key
    ensures Matching(bs, bs[j].key) == [bs[j]]
  {
    var front := bs[..|bs| - 1];
    assert forall i :: 0 <= i < |front| ==> front[i] == bs[i];
    if j == |bs| - 1 {
      MatchingEmptyIff(front, bs[j].key);
    } else {
      MatchingUnique(front, j);
    }
  }

  /** Two bindings that share a key both match it, so that key is ambiguous. */
  lemma {:induction false} MatchingAtLeastTwo(bs: seq<Binding>, i: nat, j: nat)
    requires i < j < |bs| && bs[i].key == bs[j].key
    ensures |Matching(bs, bs[i].key)| >= 2
  {
    var front := bs[..|bs| - 1];
    assert forall k :: 0 <= k < |front| ==> front[k] == bs[k];
    if j == |bs| - 1 {
      MatchingNonEmpty(front, i);
    } else {
      MatchingAtLeastTwo(front, i, j);
    }
  }

  lemma {:induction false} MatchingNonEmpty(bs: seq<Binding>, i: nat)
    requires i < |bs|
    ensures |Matching(bs, bs[i].key)| >= 1
  {
    var front := bs[..|bs| - 1];
    assert forall k :: 0 <= k < |front| ==> front[k] == bs[k];
    if i < |bs| - 1 {
      MatchingNonEmpty(front, i);
    }
  }

  /** A lookup fails with NothingInjectable exactly when no binding carries the key. */
  lemma UnknownKeyIsNothingInjectable(implicitBindings: seq<Binding>, key: BindingKey)
    ensures GetInstance(NewBindingMapping(implicitBindings), key) == Err(NothingInjectable(key))
        <==> forall i :: 0 <= i < |implicitBindings| ==> implicitBindings[i].key != key
  {
    LookupOutcomes(implicitBindings, key);
    MatchingEmptyIff(implicitBindings, key);
  }

  /** A key that no other binding carries resolves to its own binding's provider result. */
  lemma NonCollidingKeyResolves(implicitBindings: seq<Binding>, j: nat)
    requires j < |implicitBindings|
    requires forall i :: 0 <= i < |implicitBindings| && i != j ==> implicitBindings[i].key != implicitBindings[j].key
    ensures GetInstance(NewBindingMapping(implicitBindings), implicitBindings[j].key)
         == Invoke(implicitBindings[j].provider)
  {
    MatchingUnique(implicitBindings, j);
    LookupOutcomes(implicitBindings, implicitBindings[j].key);
  }

  /**
   * Two bindings sharing a key make that key ambiguous on lookup; building
   * the mapping itself does not fail (it is total) and still indexes both.
   */
  lemma CollidingKeyIsAmbiguous(implicitBindings: seq<Binding>, i: nat, j: nat)
    requires i < j < |implicitBindings| && implicitBindings[i].key == implicitBindings[j].key
    ensures implicitBindings[i].key in NewBindingMapping(implicitBindings).index
         && |NewBindingMapping(implicitBindings).index[implicitBindings[i].key]| >= 2
    ensures GetInstance(NewBindingMapping(implicitBindings), implicitBindings[i].key)
         == Err(Ambiguous(implicitBindings[i].key))
  {
    var key := implicitBindings[i].key;
    var m := NewBindingMapping(implicitBindings);
    MatchingAtLeastTwo(implicitBindings, i, j);
    assert Matching(implicitBindings, key) != [];
    assert key in m.index && m.index[key] == Matching(implicitBindings, key);
    LookupOutcomes(implicitBindings, key);
  }

  // ---------------------------------------------------------------------------
  // The cases of `NewBindingMappingTest`

  /** A mapping built from no bindings resolves nothing. */
  lemma NoInputBindingsReturnsEmptyMapping(key: BindingKey)
    ensures GetInstance(NewBindingMapping([]), key) == Err(NothingInjectable(key))
  {
  }

  /** A key with no binding fails even when another key is bound. */
  lemma UnknownBindingRaisesError(someClass: ClassRef)
    ensures GetInstance(NewBindingMapping([Binding(WithoutAnnotation("some_class"), Construct(someClass))]),
                        WithoutAnnotation("unknown_class"))
         == Err(NothingInjectable(WithoutAnnotation("unknown_class")))
  {
    UnknownKeyIsNothingInjectable([Binding(WithoutAnnotation("some_class"), Construct(someClass))],
                                  WithoutAnnotation("unknown_class"));
  }

  /** One implicit class binding yields an instance of that class. */
  lemma SingleImplicitClassGetsMapped(someClass: ClassRef)
    ensures GetInstance(NewBindingMapping([Binding(WithoutAnnotation("some_class"), Construct(someClass))]),
                        WithoutAnnotation("some_class"))
         == Ok(Instance(someClass))
  {
    NonCollidingKeyResolves([Binding(WithoutAnnotation("some_class"), Construct(someClass))], 0);
  }

  /** Two implicit bindings under different keys each resolve to their own class. */
  lemma MultipleNoncollidingImplicitClassesGetMapped(classOne: ClassRef, classTwo: ClassRef)
    ensures var m := NewBindingMapping([Binding(WithoutAnnotation("class_one"), Construct(classOne)),
                                        Binding(WithoutAnnotation("class_two"), Construct(classTwo))]);
      GetInstance(m, WithoutAnnotation("class_one")) == Ok(Instance(classOne)) &&
      GetInstance(m, WithoutAnnotation("class_two")) == Ok(Instance(classTwo))
  {
    ClassKeysDiffer();
    DistinctKeysResolve(WithoutAnnotation("class_one"), WithoutAnnotation("class_two"), classOne, classTwo);
  }

  lemma ClassKeysDiffer()
    ensures WithoutAnnotation("class_one") != WithoutAnnotation("class_two")
  {
    assert "class_one"[6] != "class_two"[6];
  }

  lemma DistinctKeysResolve(k1: BindingKey, k2: BindingKey, c1: ClassRef, c2: ClassRef)
    requires k1 != k2
    ensures var m := NewBindingMapping([Binding(k1, Construct(c1)), Binding(k2, Construct(c2))]);
      GetInstance(m, k1) == Ok(Instance(c1)) && GetInstance(m, k2) == Ok(Instance(c2))
  {
    var bs := [Binding(k1, Construct(c1)), Binding(k2, Construct(c2))];
    var m := NewBindingMapping(bs);
    assert bs[0].key == k1 && bs[1].key == k2 && |bs| == 2;
    assert GetInstance(m, k1) == Ok(Instance(c1)) by {
      NonCollidingKeyResolves(bs, 0);
    }
    assert GetInstance(m, k2) == Ok(Instance(c2)) by {
      NonCollidingKeyResolves(bs, 1);
    }
  }

  /** Two implicit bindings under the same key make it ambiguous. */
  lemma MultipleCollidingClassesRaisesError(someClass: ClassRef, privateSomeClass: ClassRef)
    ensures GetInstance(NewBindingMapping([Binding(WithoutAnnotation("some_class"), Construct(someClass)),
                                           Binding(WithoutAnnotation("some_class"), Construct(privateSomeClass))]),
                        WithoutAnnotation("some_class"))
         == Err(Ambiguous(WithoutAnnotation("some_class")))
  {
    CollidingKeyIsAmbiguous([Binding(WithoutAnnotation("some_class"), Construct(someClass)),
                             Binding(WithoutAnnotation("some_class"), Construct(privateSomeClass))], 0, 1);
  }
}
