/** The error kinds the binding core raises, each naming the offending key or arg name. */
module Errors {
  import opened BindingKeys

  datatype Error =
    /** `NothingInjectableForArgNameError`: no binding matches the key. */
    | NothingInjectable(key: BindingKey)
    /** `AmbiguousArgNameError`: two or more implicit bindings match the key. */
    | Ambiguous(key: BindingKey)
    /** `NoBindingTargetError`: `bind` was given none of its three targets. */
    | NoBindingTarget(argName: string)
    /** `MultipleBindingTargetsError`: `bind` was given more than one target. */
    | MultipleBindingTargets(argName: string)
    /** `InvalidBindingTargetError`: a `to_class` that is not a class, or a `to_provider` that is not callable. */
    | InvalidBindingTarget(argName: string)
    /** The future injector was asked to provide before `set_injector`. */
    | InjectorNotSet
    /** `set_injector` was called a second time. */
    | InjectorAlreadySet
}
