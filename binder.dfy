/**
 * `Binder`: validates `bind(arg_name, to_class=..., to_instance=...,
 * to_provider=...)` calls and appends one binding per successful call to a
 * list the caller owns. Class targets are resolved lazily, through a future
 * injector that is set after binding.
 */
module Binders {
  import opened Wrappers
  import opened BindingKeys
  import opened Errors
  import opened Values
  import opened Injecting
  import opened Providers

  /** How many of the three keyword targets were supplied (a Python `None` counts as not supplied). */
  function TargetCount(toClass: Option<PyValue>, toInstance: Option<PyValue>, toProvider: Option<PyValue>): nat
  {
    (if toClass.Some? then 1 else 0) + (if toInstance.Some? then 1 else 0) + (if toProvider.Some? then 1 else 0)
  }

  /**
   * The binding one `bind` call records, or the error it raises. The checks
   * happen at call time; no provider is called and the future injector is
   * not read, which is what lets class bindings precede `set_injector`.
   */
  function NewExplicitBinding(argName: string, toClass: Option<PyValue>, toInstance: Option<PyValue>,
                              toProvider: Option<PyValue>, future: FutureInjector): (r: Result<Binding, Error>)
    ensures r.Ok? ==> r.value.key == WithoutAnnotation(argName)
  {
    if TargetCount(toClass, toInstance, toProvider) == 0 then Err(NoBindingTarget(argName))
    else if TargetCount(toClass, toInstance, toProvider) > 1 then Err(MultipleBindingTargets(argName))
    else if toClass.Some? then
      if IsClass(toClass.value) then Ok(Binding(WithoutAnnotation(argName), ProvideFromFuture(future, toClass.value.cls)))
      else Err(InvalidBindingTarget(argName))
    else if toInstance.Some? then
      Ok(Binding(WithoutAnnotation(argName), ReturnInstance(toInstance.value)))
    else
      match toProvider.value
      case Class(cls) => Ok(Binding(WithoutAnnotation(argName), Construct(cls)))
      case Function(fn) => Ok(Binding(WithoutAnnotation(argName), CallFunction(fn)))
      case _ => Err(InvalidBindingTarget(argName))
  }

  /** The error taxonomy of `bind`, each kind exactly characterised by the targets supplied. */
  lemma BindErrors(argName: string, toClass: Option<PyValue>, toInstance: Option<PyValue>,
                   toProvider: Option<PyValue>, future: FutureInjector)
    ensures var r := NewExplicitBinding(argName, toClass, toInstance, toProvider, future);
      && (r == Err(NoBindingTarget(argName)) <==> toClass.None? && toInstance.None? && toProvider.None?)
      && (r == Err(MultipleBindingTargets(argName)) <==> TargetCount(toClass, toInstance, toProvider) >= 2)
      && (r == Err(InvalidBindingTarget(argName)) <==>
            TargetCount(toClass, toInstance, toProvider) == 1 &&
            ((toClass.Some? && !IsClass(toClass.value)) || (toProvider.Some? && !IsCallable(toProvider.value))))
      && (r.Err? ==> r.error in {NoBindingTarget(argName), MultipleBindingTargets(argName), InvalidBindingTarget(argName)})
  {
  }

  /**
   * What the provider of a recorded binding yields: the identical instance,
   * the supplied callable's result, a new instance of a class given as
   * provider, or whatever the future injector provides for the class.
   */
  lemma BoundProviders(argName: string, v: PyValue, future: FutureInjector)
    ensures var r := NewExplicitBinding(argName, None, Some(v), None, future);
      r.Ok? && Invoke(r.value.provider) == Ok(v)
    ensures v.Function? ==> var r := NewExplicitBinding(argName, None, None, Some(v), future);
      r.Ok? && Invoke(r.value.provider) == Ok(v.call())
    ensures v.Class? ==> var r := NewExplicitBinding(argName, None, None, Some(v), future);
      r.Ok? && Invoke(r.value.provider) == Ok(Instance(v.cls))
    ensures v.Class? ==> var r := NewExplicitBinding(argName, Some(v), None, None, future);
      r.Ok? && Invoke(r.value.provider) == future.Provide(v.cls)
  {
  }

  /** The list of collected bindings, owned by the caller and appended to by the binder. */
  class CollectedBindings {
    var items: seq<Binding>

    constructor ()
      ensures items == []
    {
      items := [];
    }
  }

  /** `Binder(future_injector, collected_bindings)`. */
  class Binder {
    const futureInjector: FutureInjector
    const collected: CollectedBindings

    constructor (futureInjector: FutureInjector, collected: CollectedBindings)
      ensures this.futureInjector == futureInjector && this.collected == collected
    {
      this.futureInjector := futureInjector;
      this.collected := collected;
    }

    /**
     * `bind(arg_name, to_class=..., to_instance=..., to_provider=...)`:
     * appends exactly the binding `NewExplicitBinding` describes, or fails
     * with its error and leaves the list as it was. Nothing else changes; in
     * particular the future injector is not touched.
     */
    method Bind(argName: string, toClass: Option<PyValue>, toInstance: Option<PyValue>, toProvider: Option<PyValue>)
      returns (outcome: Outcome<Error>)
      modifies collected
      ensures var r := NewExplicitBinding(argName, toClass, toInstance, toProvider, futureInjector);
        && (r.Ok? ==> outcome == Pass && collected.items == old(collected.items) + [r.value])
        && (r.Err? ==> outcome == Fail(r.error) && collected.items == old(collected.items))
    {
      var r := NewExplicitBinding(argName, toClass, toInstance, toProvider, futureInjector);
      match r
      case Ok(b) =>
        collected.items := collected.items + [b];
        outcome := Pass;
      case Err(e) =>
        outcome := Fail(e);
    }
  }

  // ---------------------------------------------------------------------------
  // The cases of `BinderTest`, each run from a fresh `setUp`.

  /**
   * Binding to a class records one binding whose provider fails until the
   * future injector is set, and afterwards returns the stub injector's result.
   */
  method CanBindToClass(someClass: ClassRef)
    returns (recorded: nat, key: BindingKey, beforeSet: Result<PyValue, Error>, afterSet: Result<PyValue, Error>)
    ensures recorded == 1 && key == WithoutAnnotation("an-arg-name")
    ensures beforeSet == Err(InjectorNotSet)
    ensures afterSet == Ok(FakeProvide(someClass))
  {
    var future := new FutureInjector();
    var collected := new CollectedBindings();
    var binder := new Binder(future, collected);
    var bound := binder.Bind("an-arg-name", Some(Class(someClass)), None, None);
    recorded := |collected.items|;
    var only := collected.items[0];
    key := only.key;
    beforeSet := Invoke(only.provider);
    var injectorSet := future.SetInjector(FakeProvide);
    afterSet := Invoke(only.provider);
  }

  /**
   * A second `set_injector` fails and keeps the first injector, so a class
   * binding keeps resolving through it.
   */
  method SetInjectorTwice(someClass: ClassRef, other: Injector)
    returns (first: Outcome<Error>, second: Outcome<Error>, provided: Result<PyValue, Error>)
    ensures first == Pass && second == Fail(InjectorAlreadySet)
    ensures provided == Ok(FakeProvide(someClass))
  {
    var future := new FutureInjector();
    var collected := new CollectedBindings();
    var binder := new Binder(future, collected);
    var bound := binder.Bind("an-arg-name", Some(Class(someClass)), None, None);
    first := future.SetInjector(FakeProvide);
    second := future.SetInjector(other);
    provided := Invoke(collected.items[0].provider);
  }

  /** Binding to an instance records one binding whose provider returns that very instance. */
  method CanBindToInstance(anInstance: PyValue)
    returns (recorded: nat, key: BindingKey, provided: Result<PyValue, Error>)
    ensures recorded == 1 && key == WithoutAnnotation("an-arg-name")
    ensures provided == Ok(anInstance)
  {
    var future := new FutureInjector();
    var collected := new CollectedBindings();
    var binder := new Binder(future, collected);
    var bound := binder.Bind("an-arg-name", None, Some(anInstance), None);
    recorded := |collected.items|;
    key := collected.items[0].key;
    provided := Invoke(collected.items[0].provider);
  }

  /** Binding to a provider records one binding whose provider returns what the callable returns. */
  method CanBindToProvider()
    returns (recorded: nat, key: BindingKey, provided: Result<PyValue, Error>)
    ensures recorded == 1 && key == WithoutAnnotation("an-arg-name")
    ensures provided == Ok(Text("a-provided-thing"))
  {
    var future := new FutureInjector();
    var collected := new CollectedBindings();
    var binder := new Binder(future, collected);
    var bound := binder.Bind("an-arg-name", None, None, Some(Function(() => Text("a-provided-thing"))));
    recorded := |collected.items|;
    key := collected.items[0].key;
    provided := Invoke(collected.items[0].provider);
  }

  /** Each malformed `bind` call fails with its own error kind and records nothing. */
  method BindingErrors(anObject: nat)
    returns (toNothing: Outcome<Error>, toMultiple: Outcome<Error>, toNonClass: Outcome<Error>,
             toNonProvider: Outcome<Error>, recorded: nat)
    ensures toNothing == Fail(NoBindingTarget("unused-arg-name"))
    ensures toMultiple == Fail(MultipleBindingTargets("unused-arg-name"))
    ensures toNonClass == Fail(InvalidBindingTarget("unused-arg-name"))
    ensures toNonProvider == Fail(InvalidBindingTarget("unused-arg-name"))
    ensures recorded == 0
  {
    var future := new FutureInjector();
    var collected := new CollectedBindings();
    var binder := new Binder(future, collected);
    toNothing := binder.Bind("unused-arg-name", None, None, None);
    toMultiple := binder.Bind("unused-arg-name", None, Some(Object(anObject)), Some(Function(() => Object(anObject))));
    toNonClass := binder.Bind("unused-arg-name", Some(Text("not-a-class")), None, None);
    toNonProvider := binder.Bind("unused-arg-name", None, None, Some(Text("not-a-provider")));
    recorded := |collected.items|;
  }
}
