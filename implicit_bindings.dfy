/**
 * `get_implicit_bindings`: one binding per name inferred from each class,
 * whose provider asks the given injector for an instance of that class.
 */
module ImplicitBindings {
  import opened Wrappers
  import opened BindingKeys
  import opened Errors
  import opened Values
  import opened Injecting
  import opened Providers
  import opened Naming

  /** The bindings one class contributes: one per name, in the order of the names. */
  function BindingsForClass(cls: ClassRef, injector: Injector, names: seq<string>): (r: seq<Binding>)
    ensures |r| == |names|
  {
    if names == [] then []
    else [Binding(WithoutAnnotation(names[0]), ProvideFrom(injector, cls))]
         + BindingsForClass(cls, injector, names[1..])
  }

  /** How many names the naming function infers for the classes, all together. */
  function NameCount(classes: seq<ClassRef>, argNamesOf: string -> seq<string>): nat
  {
    if classes == [] then 0 else |argNamesOf(classes[0].name)| + NameCount(classes[1..], argNamesOf)
  }

  /** `b` is an implicit binding for one of `classes`, under one of the names inferred for it. */
  ghost predicate BindsInferredName(b: Binding, classes: seq<ClassRef>, injector: Injector,
                                    argNamesOf: string -> seq<string>)
  {
    && b.provider.ProvideFrom?
    && b.provider.injector == injector
    && b.provider.cls in classes
    && b.key.argName in argNamesOf(b.provider.cls.name)
  }

  /**
   * `get_implicit_bindings(classes, injector, get_arg_names_from_class_name)`.
   * Pass `DefaultArgNames` for the default naming function.
   */
  function GetImplicitBindings(classes: seq<ClassRef>, injector: Injector,
                               argNamesOf: string -> seq<string>): (r: seq<Binding>)
    ensures |r| == NameCount(classes, argNamesOf)
    ensures forall i :: 0 <= i < |r| ==> BindsInferredName(r[i], classes, injector, argNamesOf)
  {
    if classes == [] then []
    else
      var here := BindingsForClass(classes[0], injector, argNamesOf(classes[0].name));
      var rest := GetImplicitBindings(classes[1..], injector, argNamesOf);
      BindingsForClassAt(classes[0], injector, argNamesOf(classes[0].name));
      here + rest
  }

  lemma {:induction false} BindingsForClassAt(cls: ClassRef, injector: Injector, names: seq<string>)
    ensures forall i :: 0 <= i < |names| ==>
      BindingsForClass(cls, injector, names)[i] == Binding(WithoutAnnotation(names[i]), ProvideFrom(injector, cls))
  {
    if names != [] {
      BindingsForClassAt(cls, injector, names[1..]);
    }
  }

  /** Every implicit binding's provider returns what the injector provides for its class. */
  lemma ProvidersDeferToInjector(classes: seq<ClassRef>, injector: Injector, argNamesOf: string -> seq<string>)
    ensures forall b :: b in GetImplicitBindings(classes, injector, argNamesOf) ==>
      b.provider.ProvideFrom? && b.provider.cls in classes && Invoke(b.provider) == Ok(injector(b.provider.cls))
  {
  }

  /** Every name inferred for every class has its binding. */
  lemma {:induction false} EveryInferredNameIsBound(classes: seq<ClassRef>, injector: Injector,
                                                    argNamesOf: string -> seq<string>, cls: ClassRef, name: string)
    requires cls in classes && name in argNamesOf(cls.name)
    ensures Binding(WithoutAnnotation(name), ProvideFrom(injector, cls)) in GetImplicitBindings(classes, injector, argNamesOf)
  {
    var r := GetImplicitBindings(classes, injector, argNamesOf);
    var here := BindingsForClass(classes[0], injector, argNamesOf(classes[0].name));
    var rest := GetImplicitBindings(classes[1..], injector, argNamesOf);
    assert r == here + rest;
    if classes[0] == cls {
      var names := argNamesOf(cls.name);
      var j :| 0 <= j < |names| && names[j] == name;
      BindingsForClassAt(cls, injector, names);
      assert r[j] == here[j];
    } else {
      EveryInferredNameIsBound(classes[1..], injector, argNamesOf, cls, name);
      var j :| 0 <= j < |rest| && rest[j] == Binding(WithoutAnnotation(name), ProvideFrom(injector, cls));
      assert r[|here| + j] == rest[j];
    }
  }

  /** With the default naming function each class contributes at most one binding. */
  lemma {:induction false} DefaultNamingAtMostOnePerClass(classes: seq<ClassRef>, injector: Injector)
    ensures |GetImplicitBindings(classes, injector, DefaultArgNames)| <= |classes|
  {
    if classes != [] {
      DefaultNamingAtMostOnePerClass(classes[1..], injector);
    }
  }

  /**
   * When a name is inferred for every class, the default bindings follow the
   * classes one for one: the i-th is keyed by the name of the i-th class and
   * provides that class.
   */
  lemma {:induction false} DefaultNamingOneForOne(classes: seq<ClassRef>, injector: Injector)
    requires forall i :: 0 <= i < |classes| ==> DefaultArgNames(classes[i].name) != []
    ensures |GetImplicitBindings(classes, injector, DefaultArgNames)| == |classes|
    ensures forall i :: 0 <= i < |classes| ==>
      DefaultArgNames(classes[i].name) == [GetImplicitBindings(classes, injector, DefaultArgNames)[i].key.argName] &&
      GetImplicitBindings(classes, injector, DefaultArgNames)[i].provider == ProvideFrom(injector, classes[i])
  {
    if classes != [] {
      var c := classes[0];
      var here := BindingsForClass(c, injector, DefaultArgNames(c.name));
      var rest := GetImplicitBindings(classes[1..], injector, DefaultArgNames);
      assert GetImplicitBindings(classes, injector, DefaultArgNames) == here + rest;
      BindingsForClassAt(c, injector, DefaultArgNames(c.name));
      forall i | 0 <= i < |classes[1..]| ensures DefaultArgNames(classes[1..][i].name) != [] {
        assert classes[1..][i] == classes[i + 1];
      }
      DefaultNamingOneForOne(classes[1..], injector);
      var r: seq<Binding> := here + rest;
      forall i | 1 <= i < |classes|
        ensures DefaultArgNames(classes[i].name) == [r[i].key.argName]
        ensures r[i].provider == ProvideFrom(injector, classes[i])
      {
        assert r[i] == rest[i - 1];
        assert classes[1..][i - 1] == classes[i];
      }
    }
  }

  // ---------------------------------------------------------------------------
  // The cases of `GetImplicitBindingsTest`, with the stub injector.

  /** No classes give no bindings. */
  lemma ReturnsNoBindingsForNoInput()
    ensures GetImplicitBindings([], FakeProvide, DefaultArgNames) == []
  {
  }

  /** A class for which exactly one name is inferred gets exactly one binding, under that name. */
  lemma DefaultSingleClass(cls: ClassRef, injector: Injector, name: string)
    requires DefaultArgNames(cls.name) == [name]
    ensures GetImplicitBindings([cls], injector, DefaultArgNames) == [Binding(WithoutAnnotation(name), ProvideFrom(injector, cls))]
  {
    var r := GetImplicitBindings([cls], injector, DefaultArgNames);
    assert [cls][1..] == [];
    assert r == BindingsForClass(cls, injector, [name]) + [];
  }

  /** `SomeClass` gives one binding, keyed `some_class`, whose provider returns `a-provided-SomeClass`. */
  lemma ReturnsBindingForInputClass(someClass: ClassRef)
    requires someClass.name == "SomeClass"
    ensures GetImplicitBindings([someClass], FakeProvide, DefaultArgNames)
         == [Binding(WithoutAnnotation("some_class"), ProvideFrom(FakeProvide, someClass))]
    ensures Invoke(ProvideFrom(FakeProvide, someClass)) == Ok(Text("a-provided-SomeClass"))
  {
    SomeClassBinding(someClass);
    StubTags();
    StubProvides(someClass, "a-provided-SomeClass");
  }

  /** An implicit binding to the stub injector provides the stub's tag for its class. */
  lemma StubProvides(cls: ClassRef, tag: string)
    requires tag == "a-provided-" + cls.name
    ensures Invoke(ProvideFrom(FakeProvide, cls)) == Ok(Text(tag))
  {
  }

  // The stub's tags for the classes of the test cases, spelled out.
  lemma StubTags()
    ensures "a-provided-" + "SomeClass" == "a-provided-SomeClass"
    ensures "a-provided-" + "ClassOne" == "a-provided-ClassOne"
    ensures "a-provided-" + "ClassTwo" == "a-provided-ClassTwo"
  {
  }

  lemma SomeClassBinding(someClass: ClassRef)
    requires someClass.name == "SomeClass"
    ensures GetImplicitBindings([someClass], FakeProvide, DefaultArgNames)
         == [Binding(WithoutAnnotation("some_class"), ProvideFrom(FakeProvide, someClass))]
  {
    SomeClassArgName();
    DefaultSingleClass(someClass, FakeProvide, "some_class");
  }

  lemma SomeClassArgName()
    ensures DefaultArgNames("SomeClass") == ["some_class"]
  {
    assert IsWord("Some") && IsWord("Class");
    assert "Some" + "Class" == "SomeClass";
    SomeClassLowered();
    TwoWordArgName("Some", "Class");
  }

  lemma SomeClassLowered()
    ensures Lower("Some") + "_" + Lower("Class") == "some_class"
  {
    LowerIs("Some", "some");
    LowerIs("Class", "class");
    assert "some" + "_" + "class" == "some_class";
  }

  /** `ClassOne` and `ClassTwo` each get a binding under their own name, providing from their own class. */
  lemma ReturnsBindingForCorrectInputClass(classOne: ClassRef, classTwo: ClassRef)
    requires classOne.name == "ClassOne" && classTwo.name == "ClassTwo"
    ensures GetImplicitBindings([classOne, classTwo], FakeProvide, DefaultArgNames)
         == [Binding(WithoutAnnotation("class_one"), ProvideFrom(FakeProvide, classOne)),
             Binding(WithoutAnnotation("class_two"), ProvideFrom(FakeProvide, classTwo))]
    ensures Invoke(ProvideFrom(FakeProvide, classOne)) == Ok(Text("a-provided-ClassOne"))
    ensures Invoke(ProvideFrom(FakeProvide, classTwo)) == Ok(Text("a-provided-ClassTwo"))
  {
    ClassOneArgName();
    ClassTwoArgName();
    DefaultTwoClasses(classOne, classTwo, FakeProvide, "class_one", "class_two");
    StubTags();
    StubProvides(classOne, "a-provided-ClassOne");
    StubProvides(classTwo, "a-provided-ClassTwo");
  }

  /** Two classes that infer one name each get one binding each, in order. */
  lemma DefaultTwoClasses(c1: ClassRef, c2: ClassRef, injector: Injector, n1: string, n2: string)
    requires DefaultArgNames(c1.name) == [n1] && DefaultArgNames(c2.name) == [n2]
    ensures GetImplicitBindings([c1, c2], injector, DefaultArgNames)
         == [Binding(WithoutAnnotation(n1), ProvideFrom(injector, c1)),
             Binding(WithoutAnnotation(n2), ProvideFrom(injector, c2))]
  {
    DefaultSingleClass(c2, injector, n2);
    var one := BindingsForClass(c1, injector, [n1]);
    assert GetImplicitBindings([c1, c2], injector, DefaultArgNames)
        == one + GetImplicitBindings([c2], injector, DefaultArgNames) by {
      assert [c1, c2][1..] == [c2];
    }
    assert one == [Binding(WithoutAnnotation(n1), ProvideFrom(injector, c1))];
  }

  lemma ClassOneArgName()
    ensures DefaultArgNames("ClassOne") == ["class_one"]
  {
    assert IsWord("Class") && IsWord("One");
    assert "Class" + "One" == "ClassOne";
    ClassOneLowered();
    TwoWordArgName("Class", "One");
  }

  lemma ClassOneLowered()
    ensures Lower("Class") + "_" + Lower("One") == "class_one"
  {
    LowerIs("Class", "class");
    LowerIs("One", "one");
    assert "class" + "_" + "one" == "class_one";
  }

  lemma ClassTwoArgName()
    ensures DefaultArgNames("ClassTwo") == ["class_two"]
  {
    assert IsWord("Class") && IsWord("Two");
    assert "Class" + "Two" == "ClassTwo";
    ClassTwoLowered();
    TwoWordArgName("Class", "Two");
  }

  lemma ClassTwoLowered()
    ensures Lower("Class") + "_" + Lower("Two") == "class_two"
  {
    LowerIs("Class", "class");
    LowerIs("Two", "two");
    assert "class" + "_" + "two" == "class_two";
  }

  /** A supplied naming function replaces the default one. */
  lemma UsesProvidedFnToMapClassNamesToArgNames(someClass: ClassRef, injector: Injector)
    ensures |GetImplicitBindings([someClass], injector, _ => ["foo"])| == 1
    ensures GetImplicitBindings([someClass], injector, _ => ["foo"])[0].key == WithoutAnnotation("foo")
  {
    EveryInferredNameIsBound([someClass], injector, _ => ["foo"], someClass, "foo");
  }
}
