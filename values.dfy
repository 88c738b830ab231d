/**
 * The Python values the binding core handles, abstracted to what it can
 * observe of them: whether a value is a class, whether it is callable, and
 * its identity.
 */
module Values {

  /** A class object, identified by its `__name__` and an identity (two local classes may share a name). */
  datatype ClassRef = ClassRef(name: string, id: nat)

  datatype PyValue =
    /** A `str`. */
    | Text(s: string)
    /** An arbitrary object such as `object()`, identified by its identity. */
    | Object(id: nat)
    /** An instance of a class, as produced by calling the class. */
    | Instance(of: ClassRef)
    /** A class object. */
    | Class(cls: ClassRef)
    /** A zero-argument callable such as a lambda. */
    | Function(call: () -> PyValue)

  /** `inspect.isclass(v)`. */
  predicate IsClass(v: PyValue) {
    v.Class?
  }

  /** `callable(v)`: classes and functions can be called, strings and plain objects cannot. */
  predicate IsCallable(v: PyValue) {
    v.Class? || v.Function?
  }

  /** An injector capability: anything with `provide(cls)`. */
  type Injector = ClassRef -> PyValue
}
