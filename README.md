# Binding resolution core of pinject, in Dafny

This project models the binding-resolution core of the pinject dependency
injector, as pinned down by its unit tests in `binding_test.py`:

- **Binding keys** (`BindingKeys`): `BindingKeyWithoutAnnotation(arg_name)` as a
  value type whose equality and string form `"the arg name <arg_name>"` agree.
- **Name inference** (`Naming`): `default_get_arg_names_from_class_name`, which
  strips one leading underscore and turns an UpperCamelCase class name into a
  one-element list holding its snake_case form, or into `[]` when the name is
  not camel case. Words are runs of one capital ASCII letter followed by
  lower-case letters and digits; any other character makes the whole name
  malformed.
- **Implicit bindings** (`ImplicitBindings`): `get_implicit_bindings(classes,
  injector, get_arg_names_from_class_name)`, one binding per inferred name whose
  provider calls `injector.provide(cls)`; the naming function is a parameter.
- **Binding mapping** (`BindingMappings`): `new_binding_mapping` builds an index
  from keys to the bindings carrying them; `get_instance(key)` fails with
  NothingInjectable for no binding, calls the provider of a single binding, and
  fails with Ambiguous for two or more. Collisions are detected at lookup, never
  at construction.
- **Binder** (`Binders`): the stateful `Binder`, which validates
  `bind(arg_name, to_class|to_instance|to_provider)` and appends exactly one
  binding to the caller's list, and the future injector (`Injecting`), a
  write-once cell through which class bindings resolve once it is set.

Python values are abstracted in `Values`: a value is a string, a plain object,
an instance of a class, a class, or a zero-argument function; "is a class" and
"is callable" are tags on that datatype. Providers are a datatype (`Providers`)
naming each kind of callable the core builds or accepts, and `Invoke` says what
calling one yields. The stub `FakeInjector.provide(cls)` of the tests is the
function `Injecting.FakeProvide`, returning `"a-provided-" + cls.__name__`.
Exceptions are modelled as `Result`/`Outcome` values carrying an `Errors.Error`.
The caller-owned list `collected_bindings` is a `CollectedBindings` object
shared by the caller and the `Binder`, so bindings appended by `Bind` are seen
through the caller's reference.

The implementation files `binding.py`, `errors.py` and `injecting.py` are not
part of this model; their behaviour is taken from what the tests assert.
Where `binding_test.py` says nothing, the model fixes its own choices: the
word-splitting rule of name inference (a capital ASCII letter followed by
lower-case letters and digits; any other character voids the name), the order
of `bind`'s checks (the number of targets first, then the kind of the one
target), and the lifecycle errors of the future injector (a second
`set_injector` fails and keeps the first injector; `provide` before
`set_injector` fails).

## Model

| member | source | states |
|---|---|---|
| BindingKeys.EqualityAgreesWithStr | binding_test.py:11-23 | keys built from two arg names are equal, and have equal string forms, exactly when the arg names are equal |
| BindingKeys.Str | binding_test.py:15-27 | `str(key)` is `"the arg name "` followed by exactly the key's arg name |
| Injecting.FakeProvideForm | binding_test.py:98-101 | the stub `FakeInjector.provide(cls)` returns a string: `"a-provided-"` followed by exactly the class name |
| Injecting.FakeProvideIdentifiesClass | binding_test.py:98-101 | two classes get the same value from the stub exactly when their names are equal |
| Naming.DefaultArgNames | binding_test.py:85-95 | name inference yields at most one name |
| Naming.ArgNameRoundTrip | binding_test.py:85-95 | an inferred name is snake_case, and camelizing it gives back the class name without its leading underscore |
| Naming.ArgNameInferredIff | binding_test.py:94-95 | a name is inferred exactly when the class name, underscore stripped, is camel case; otherwise the result is empty |
| Naming.SameArgNameIff | binding_test.py:70-80 | when the first class name infers a name, the two class names infer the same name exactly when they agree after stripping the leading underscore (why `SomeClass` and `_SomeClass` collide) |
| Naming.TailRunSpec | binding_test.py:91-92 | the run measured after a capital letter is made of lower-case letters and digits and stops at the first other character |
| Naming.SplitWordsSound | binding_test.py:91-92 | the words found in a name concatenate back to it and are each a capital letter followed by lower-case letters and digits |
| Naming.SplitWordsDefined | binding_test.py:94-95 | splitting into words succeeds exactly on the empty string and on camel-case names |
| Naming.SplitConcatWords | binding_test.py:91-92 | splitting the concatenation of camel-case words gives back exactly those words |
| Naming.DefaultArgNamesOfWords | binding_test.py:85-92 | a class named by camel-case words, with or without leading underscore, infers those words lower-cased and joined by underscores |
| Naming.SingleWordLowercased | binding_test.py:85-86 | `Foo` infers `["foo"]` |
| Naming.LeadingUnderscoreStripped | binding_test.py:88-89 | `_Foo` infers `["foo"]` |
| Naming.MultipleWordsLowercasedWithUnderscores | binding_test.py:91-92 | `FooBarBaz` infers `["foo_bar_baz"]` |
| Naming.MalformedClassNameGivesNoName | binding_test.py:94-95 | `notAllCamelCase` infers `[]` |
| Injecting.FutureInjector.constructor | binding_test.py:150 | a future injector starts with no backing injector |
| Injecting.FutureInjector.SetInjector | binding_test.py:158 | the first call fills the cell with the given injector; a second call fails with InjectorAlreadySet and leaves the cell as it was |
| Injecting.FutureInjector.Provide | binding_test.py:154-162 | fails with InjectorNotSet exactly while the cell is empty, and otherwise returns what the backing injector provides |
| Providers.Invoke | binding_test.py:116 | calling a provider can fail only for a future-injector provider whose cell is empty; the other kinds return a new instance, the injector's result, the instance, or the function's result |
| ImplicitBindings.GetImplicitBindings | binding_test.py:106-144 | one binding per (class, inferred name) in total, each keyed by a name inferred for its class and providing from the given injector |
| ImplicitBindings.EveryInferredNameIsBound | binding_test.py:109-116 | every name inferred for every class has a binding under that name that provides that class from the injector |
| ImplicitBindings.ProvidersDeferToInjector | binding_test.py:128-135 | every implicit binding's provider returns `injector.provide(cls)` for its class |
| ImplicitBindings.DefaultNamingAtMostOnePerClass | binding_test.py:85-95 | with the default naming function, there are at most as many bindings as classes |
| ImplicitBindings.DefaultNamingOneForOne | binding_test.py:118-135 | when every class name infers a name, the i-th binding is keyed by the name of the i-th class and provides that class |
| ImplicitBindings.DefaultSingleClass | binding_test.py:109-116 | a class that infers exactly one name gets exactly one binding, under that name |
| ImplicitBindings.ReturnsNoBindingsForNoInput | binding_test.py:106-107 | no classes give no bindings |
| ImplicitBindings.ReturnsBindingForInputClass | binding_test.py:109-116 | `SomeClass` gives exactly one binding, keyed `some_class`, whose provider returns `a-provided-SomeClass` |
| ImplicitBindings.ReturnsBindingForCorrectInputClass | binding_test.py:118-135 | `ClassOne`, `ClassTwo` give bindings keyed `class_one`, `class_two` whose providers return `a-provided-ClassOne`, `a-provided-ClassTwo` |
| ImplicitBindings.UsesProvidedFnToMapClassNamesToArgNames | binding_test.py:137-144 | a supplied naming function replaces the default: `lambda _: ['foo']` gives one binding keyed `foo` |
| BindingMappings.NewBindingMapping | binding_test.py:42-43 | the index holds a key exactly when some binding carries it, and then holds all bindings carrying it, in order |
| BindingMappings.GetInstance | binding_test.py:32-80 | a lookup fails only with NothingInjectable, Ambiguous (naming the key) or a lifecycle error of the provider |
| BindingMappings.LookupOutcomes | binding_test.py:32-80 | no binding for the key gives NothingInjectable, exactly one gives its provider's result, two or more give Ambiguous (both directions for the errors) |
| BindingMappings.MatchingEmptyIff | binding_test.py:38-47 | no binding matches a key exactly when no binding carries it |
| BindingMappings.MatchingUnique | binding_test.py:57-68 | a key carried by one binding only matches just that binding |
| BindingMappings.MatchingAtLeastTwo | binding_test.py:70-80 | two bindings with the same key both match it |
| BindingMappings.UnknownKeyIsNothingInjectable | binding_test.py:38-47 | a lookup fails with NothingInjectable exactly when no binding carries the key |
| BindingMappings.NonCollidingKeyResolves | binding_test.py:57-68 | a key no other binding carries resolves to its own binding's provider result |
| BindingMappings.CollidingKeyIsAmbiguous | binding_test.py:70-80 | two bindings sharing a key are both indexed (construction does not fail) and the lookup fails with Ambiguous |
| BindingMappings.NoInputBindingsReturnsEmptyMapping | binding_test.py:32-36 | a mapping built from no bindings fails every lookup with NothingInjectable |
| BindingMappings.UnknownBindingRaisesError | binding_test.py:38-47 | `unknown_class` is not injectable when only `some_class` is bound |
| BindingMappings.SingleImplicitClassGetsMapped | binding_test.py:49-55 | one binding of `some_class` to a class yields an instance of that class |
| BindingMappings.DistinctKeysResolve | binding_test.py:57-68 | two constructor bindings under different keys each resolve to an instance of their own class |
| BindingMappings.MultipleNoncollidingImplicitClassesGetMapped | binding_test.py:57-68 | `class_one` and `class_two` each yield an instance of their own class |
| BindingMappings.MultipleCollidingClassesRaisesError | binding_test.py:70-80 | two bindings of `some_class` make its lookup fail with Ambiguous |
| Binders.NewExplicitBinding | binding_test.py:157-177 | a successful `bind` records a binding keyed by exactly the given arg name |
| Binders.BindErrors | binding_test.py:179-196 | no target gives NoBindingTarget, two or more give MultipleBindingTargets, a single non-class `to_class` or non-callable `to_provider` gives InvalidBindingTarget, each exactly in those cases |
| Binders.BoundProviders | binding_test.py:154-177 | `to_instance` provides the identical value, `to_provider` the callable's result (a class as provider, a new instance), `to_class` whatever the future injector provides |
| Binders.CollectedBindings.constructor | binding_test.py:151 | the caller's collected-bindings list starts empty |
| Binders.Binder.constructor | binding_test.py:152 | a binder is tied to the given future injector and collected-bindings list |
| Binders.Binder.Bind | binding_test.py:154-196 | on success appends exactly the one validated binding to the caller's list; on error returns it and leaves the list unchanged; changes nothing else |
| Binders.CanBindToClass | binding_test.py:154-162 | one binding keyed `an-arg-name`; its provider fails before `set_injector` and returns the stub's `provide(cls)` after |
| Binders.SetInjectorTwice | binding_test.py:154-162 | a second `set_injector` fails and the class binding keeps resolving through the first injector |
| Binders.CanBindToInstance | binding_test.py:164-170 | one binding keyed `an-arg-name` whose provider returns that very instance |
| Binders.CanBindToProvider | binding_test.py:172-177 | one binding keyed `an-arg-name` whose provider returns `a-provided-thing` |
| Binders.BindingErrors | binding_test.py:179-196 | no target, two targets, a string as `to_class`, a string as `to_provider` each fail with their error kind and record nothing |

## Left out

- Explicit bindings: `new_binding_mapping(explicit, implicit)` is modelled as `NewBindingMapping(implicit)`. The tests always pass `[]` as the explicit list, so the precedence of explicit over implicit bindings, and what happens to duplicate explicit bindings, is not fixed by any modelled code.
- The real injector and object-graph construction in `injecting.py`: only the stub `FakeInjector.provide` and the future-injector cell are modelled; any injector is a function from classes to values.
- Hash values: keys are a datatype with structural equality, so `hash` agreeing with equality holds by construction; concrete hash values are not modelled.
- Python reflection: `inspect.isclass`, `callable` and `__name__` are tags and fields of the value datatype; calling a class gives `Instance(cls)`, "an instance of cls", without a fresh object identity.
- Passing `None` explicitly for a target is the same as omitting it (both are `Option.None`).
- Error message text: only the error kind and the key or arg name it names are modelled.
- Characters: class names are compared as ASCII; Unicode letter classes are not modelled.
- The unittest harness itself: each test case is a lemma or a client method named after it.
- Providers.Invoke: user callables given as `to_provider`, class constructors and injectors are total functions here and are assumed not to raise; in Python an exception they raise propagates out of `provider_fn()`, which this contract does not cover.
- BindingMappings.GetInstance: for the same reason, its error list (NothingInjectable, Ambiguous, InjectorNotSet) omits an exception raised by the provider it calls, which `get_instance` would pass on.
- ImplicitBindings.GetImplicitBindings: the optional `get_arg_names_from_class_name` argument is a required parameter; a call without it is modelled by passing `DefaultArgNames`.
