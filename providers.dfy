/**
 * Bindings and their providers. A provider is a zero-argument callable; the
 * model names each kind of callable the core builds or accepts, and `Invoke`
 * says what calling it yields.
 */
module Providers {
  import opened Wrappers
  import opened BindingKeys
  import opened Errors
  import opened Values
  import opened Injecting

  datatype Provider =
    /** A class used directly as provider: calling it makes a new instance. */
    | Construct(cls: ClassRef)
    /** `lambda: injector.provide(cls)`, built for implicit bindings. */
    | ProvideFrom(injector: Injector, cls: ClassRef)
    /** `lambda: future_injector.provide(cls)`, built by `bind(..., to_class=cls)`. */
    | ProvideFromFuture(future: FutureInjector, cls: ClassRef)
    /** `lambda: instance`, built by `bind(..., to_instance=instance)`. */
    | ReturnInstance(instance: PyValue)
    /** A callable given as `to_provider`, used as it is. */
    | CallFunction(fn: () -> PyValue)

  /** `Binding(binding_key, provider_fn)`. */
  datatype Binding = Binding(key: BindingKey, provider: Provider)

  /** The mutable state a provider depends on when it is called. */
  function Footprint(p: Provider): set<object>
  {
    if p.ProvideFromFuture? then {p.future} else {}
  }

  /**
   * `provider_fn()`. Only a provider that goes through the future injector
   * can fail, and only before that injector is set.
   */
  function Invoke(p: Provider): (r: Result<PyValue, Error>)
    reads Footprint(p)
    ensures r.Err? ==> p.ProvideFromFuture? && p.future.injector.None? && r.error == InjectorNotSet
    ensures p.Construct? ==> r == Ok(Instance(p.cls))
    ensures p.ProvideFrom? ==> r == Ok(p.injector(p.cls))
    ensures p.ReturnInstance? ==> r == Ok(p.instance)
    ensures p.CallFunction? ==> r == Ok(p.fn())
  {
    match p
    case Construct(cls) => Ok(Instance(cls))
    case ProvideFrom(injector, cls) => Ok(injector(cls))
    case ProvideFromFuture(future, cls) => future.Provide(cls)
    case ReturnInstance(instance) => Ok(instance)
    case CallFunction(fn) => Ok(fn())
  }
}
