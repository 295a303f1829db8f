# Parable DI container — resolution engine in Dafny

This project models the `Container` class of the `parable-php/di` package. The container builds objects and injects their
constructor dependencies. It keeps two pieces of mutable state:

- `$instances` maps a normalized type id (a class or interface name without leading
  backslashes) to the object stored for it.
- `$relationships` records one edge from a dependent class to each class it needed. The edges are used only to refuse
  two-class cycles.

The model has four layers:

- `values.dfy` (module `Values`) holds the values the container handles:
  - type ids;
  - objects as `Instance(cls, handle, args)`, where the handle is the object's identity and `args` are its constructor
    arguments in order;
  - the exceptions it throws, as an `Error` datatype inside a `Result`.

  PHP reflection becomes an immutable class table. Each name is one of:
  - `Unknown`;
  - an `Interface`;
  - a class with `NoConstructor`;
  - a `Class(params)` whose parameters are class-typed, built-in-typed (`string`, `int`, ...) or untyped;
  - an `Uninstantiable(params)` class. This is an abstract class, a trait or a class whose constructor is not public.
    `interface_exists` does not reject it, so its dependencies are resolved, and then `new` throws a PHP `\Error`.
- `names.dfy` (module `Names`) holds `normalize` (`ltrim($id, "\\")`) and its laws.
- `resolution.dfy` (module `Resolution`) holds every operation of the class as a function from the state
  `State(instances, relationships, nextHandle)` to a result and the next state. Each function follows the PHP method
  step by step. A failure therefore returns the state reached at the point of failure. Edges and objects recorded before
  an exception stay recorded, because PHP does not roll them back.
- `container.dfy` (module `DiContainer`) holds `class Container`, the imperative form. The two maps are fields that the
  methods update in place, and the `foreach` loops of `getDependenciesFor`, `clearRelationship` and `clearExcept` are
  `while` loops. Each method is proved to leave `Snapshot()` exactly as its function in `Resolution` does. The function
  usually has the same name, with these exceptions:
  - `Has` returns the `Resolution.Has` expression on its fields.
  - `ResolveParameter` follows `Resolution.ResolveParam`.
  - `ClearRelationship` leaves the edges as `Resolution.ClearRelationships` does.
  - `GetStoredInstance`, the lookup inside `clearExcept`, has no function of its own. It matches `Resolution.GetStored`.
- `properties.dfy` (module `ResolutionProperties`) holds what the container promises across calls:
  - caching and idempotent `get`;
  - the shape of resolved dependencies in each mode;
  - self-injection of the container;
  - which ids `build` and `buildAll` may store;
  - cycle rejection;
  - error cases and the effect of `clear`.

The three mutually recursive operations `get`, `createInstance` and `getDependenciesFor` take an explicit nesting
budget `fuel`. Each nested construction takes one unit: a `get` that has to build, or a `build` of a dependency in new
mode. The model returns `Err(StackExhausted)` when the budget runs out. Such an error is never caught, so a call that
did not run out gives the same result with any larger budget (`GetMoreFuel`, `BuildMoreFuel`, `BuildAllMoreFuel`).

`storeRelationship` only catches cycles of two classes. A longer cycle fails in PHP only when no class on it is stored;
there PHP recurses until its stack is exhausted, unless an earlier edge closes a two-class cycle first.
`UnstoredCycleFails` proves that `get` of such a class fails in either case.

Objects are told apart by handle. A newly constructed object receives `nextHandle`, which then increases. The container
itself is `Instance("Parable\Di\Container", 0, [])`, and the first handle handed out is 1.

Three statements about storage:

- `build` of an id that is not stored never stores that id, whatever the dependency graph.
- After a successful `build`, every direct dependency is stored. After a successful `buildAll`, every dependency of a
  direct dependency is stored.
- `buildAll` stores only what the nested `build` calls resolve with `get`. A set `R` is closed when each dependency of
  a member of `R` is in `R` or already stored. The stored ids all lie in any closed set `R` that holds the unstored
  dependencies of `id`'s direct dependencies. A direct dependency that is also a dependency of another direct dependency
  does get stored: for `A(D, E)` with `E(D)`, building `E` stores `D`.

A few points differ between the code and the tests that ship with it. The model follows `src/Container.php`:

- Error messages use the code's formats rather than the test strings. For example: "Could not create instance of
  '%s'", and quotes rather than backticks.
- A missing instance raises `NotFoundException`.
- A scalar constructor parameter always fails, whatever its default value.
- Ids are not trimmed of whitespace.
- `clearExcept` builds nothing.
- `clear` keeps the edges that point to the cleared id.
- `clearAll` also forgets the container's own entry.

## Model

| member | source | states |
|---|---|---|
| Values.Rethrow | src/Container.php:97-101 | every `\Exception` becomes a ContainerException with the same message; a PHP `\Error` and stack exhaustion pass through unchanged |
| Values.StrictlyEqual | src/Container.php:185 | PHP `===` never holds between values of different types; two strings are identical exactly when equal |
| Names.Normalize | src/Container.php:256-259 | the result never starts with a backslash |
| Names.NormalizeIsSuffix | src/Container.php:256-259 | the result is the suffix of the id left after its whole run of leading backslashes |
| Names.NormalizeIdempotent | src/Container.php:256-259 | normalizing twice is normalizing once |
| Names.NormalizeIgnoresBackslashPrefix | src/Container.php:256-259 | prefixing any number of backslashes does not change the normal form |
| Resolution.HasNormalizedId | src/Container.php:57-62 | `has` of an already-normalized id gives the same answer as `has` of the raw id |
| Resolution.Store | src/Container.php:226-235 | exactly one key (the normalized id, or the object's own class when none is given) now maps to the object; every other key and the edges are unchanged |
| Resolution.Initial | src/Container.php:24-31 | a new container stores only itself, under its own class name, and has no edges |
| Resolution.StoreRelationship | src/Container.php:240-251 | the edge is always recorded and no other row changes; it fails, naming dependent then dependency, exactly when the reverse edge was present or both are the same class |
| Resolution.Get | src/Container.php:40-50 | resolution never loses or replaces a stored object; on success the result is stored under the normalized id; when it was not stored before, it is a newly created object of that class |
| Resolution.Build | src/Container.php:69-72 | on success a new object of the normalized class, with a handle allocated during the call; stored objects are kept |
| Resolution.BuildAll | src/Container.php:79-82 | on success a new object of the normalized class, with a handle allocated during the call; stored objects are kept |
| Resolution.CreateInstance | src/Container.php:89-104 | success only for a class `new` can instantiate, giving a new object of the normalized class; anything thrown escapes as a ContainerException or a PHP `\Error` |
| Resolution.GetDependenciesFor | src/Container.php:112-158 | resolving dependencies never loses or replaces a stored object and only allocates handles |
| Resolution.ResolveParams | src/Container.php:128-157 | the parameter loop never loses or replaces a stored object |
| Resolution.ResolveParam | src/Container.php:132-154 | resolving one parameter never loses or replaces a stored object |
| Resolution.GetStored | src/Container.php:44-49 | `get` of a stored id returns that object and changes nothing, whatever the budget |
| Resolution.ClearRelationships | src/Container.php:179-189 | only the id's own row is removed: the `===` test of the second loop can never remove a row |
| Resolution.Clear | src/Container.php:163-174 | not stored: NotFoundException and nothing changes; stored: exactly that entry and its own edge row are removed |
| Resolution.FirstMissing | src/Container.php:199-204 | the first position of `keep` whose id is not stored; every earlier id is stored |
| Resolution.KeptIdsAreNormalizedIds | src/Container.php:198-207 | the keys collected by the loop are the normalized ids of `keep` seen so far |
| Resolution.ClearExcept | src/Container.php:196-210 | succeeds exactly when every kept id is stored; on failure NotFoundException for a missing kept id and an unchanged state; on success the keys are exactly the normalized kept ids with their objects, and the edges are unchanged |
| Resolution.ClearExceptStopsAt | src/Container.php:199-204 | the error names the first kept id that is not stored |
| Resolution.ClearExceptKeeps | src/Container.php:205-209 | once every kept id is stored, the store is replaced by the collected entries |
| Resolution.ClearAll | src/Container.php:215-219 | no id is stored any more and there are no edges |
| DiContainer.Container.constructor | src/Container.php:24-31 | the fields start as `Resolution.Initial()` and the container's object is itself |
| DiContainer.Container.Has | src/Container.php:57-62 | true exactly when the normalized id is stored (`Resolution.Has` of the fields); changes nothing |
| DiContainer.Container.Store | src/Container.php:226-235 | the fields become `Resolution.Store` of the old fields |
| DiContainer.Container.StoreRelationship | src/Container.php:240-251 | result and fields are those of `Resolution.StoreRelationship` |
| DiContainer.Container.Get | src/Container.php:40-50 | result and fields are those of `Resolution.Get` |
| DiContainer.Container.Build | src/Container.php:69-72 | result and fields are those of `Resolution.Build` |
| DiContainer.Container.BuildAll | src/Container.php:79-82 | result and fields are those of `Resolution.BuildAll` |
| DiContainer.Container.CreateInstance | src/Container.php:89-104 | result and fields are those of `Resolution.CreateInstance` |
| DiContainer.Container.GetDependenciesFor | src/Container.php:112-158 | the `foreach` over the parameters gives the result and fields of `Resolution.GetDependenciesFor` |
| DiContainer.Container.ResolveParameter | src/Container.php:133-154 | one pass of that `foreach`, as `Resolution.ResolveParam` |
| DiContainer.Container.Clear | src/Container.php:163-174 | result and fields are those of `Resolution.Clear` |
| DiContainer.Container.ClearRelationship | src/Container.php:179-189 | the `unset` and the loop leave the edges as `Resolution.ClearRelationships`; the instances are untouched |
| DiContainer.Container.ClearExcept | src/Container.php:196-210 | the `foreach` gives the result and fields of `Resolution.ClearExcept`; the store is reassigned only after every id was found |
| DiContainer.Container.GetStoredInstance | src/Container.php:206 | `get` of a stored id returns its object and changes no field, as `Resolution.GetStored` |
| DiContainer.Container.ClearAll | src/Container.php:215-219 | the fields become `Resolution.ClearAll` of the old fields |
| ResolutionProperties.HasIgnoresLeadingBackslashes | tests/DiTest.php:221-229 | `has("\\" + x)`, `has("\" + x)` and `has(x)` agree |
| ResolutionProperties.GetTwiceSameInstance | tests/DiTest.php:31-39 | after a successful `get`, the same `get` returns the same object and changes nothing |
| ResolutionProperties.BuildRejectsInterfaces | src/Container.php:93-95 | `build` and `buildAll` of an interface fail with a ContainerException and change nothing |
| ResolutionProperties.ResolveParamsShape | src/Container.php:132-157 | on success one dependency per parameter in order, after those already collected; every parameter is class-typed; a non-empty loop needs a valid mode |
| ResolutionProperties.DependenciesShape | src/Container.php:112-158 | for a class with a constructor, a successful result has one entry per parameter, in order, every parameter is class-typed and the mode is valid unless there are none; in stored mode entry j is the object stored under parameter j's class; in new mode it is a new object of that class |
| ResolutionProperties.BuildUsesStoredDependencies | tests/DiTest.php:62-71 | each argument `build` passes is the object stored under the parameter's class afterwards, and the one stored before when there was one |
| ResolutionProperties.BuildAllUsesNewDependencies | tests/DiTest.php:84-93 | each argument `buildAll` passes is a new object of the parameter's class, created during the call before the object itself |
| ResolutionProperties.ContainerInjectsItself | tests/DiTest.php:301-306 | in a new container, a parameter of the container's class receives the container itself |
| ResolutionProperties.OneDependencyScenario | tests/DiTest.php:50-93 | for a class needing one constructor-less class: `build` succeeds, stores the dependency (reusing one already stored) and not the class; `buildAll` succeeds, stores nothing and passes a new object |
| ResolutionProperties.GetStoresWithin | src/Container.php:40-50 | `get` of an id in a closed set, or already stored, stores nothing outside the set |
| ResolutionProperties.BuildStoresWithin | src/Container.php:69-72 | `build` stores only ids of a closed set containing its unstored direct dependencies |
| ResolutionProperties.CreateStoresWithin | src/Container.php:89-104 | in new mode only what the dependencies of direct dependencies need; in stored mode only what the direct dependencies need |
| ResolutionProperties.DependenciesStoreWithin | src/Container.php:112-158 | the same bound for the whole parameter list |
| ResolutionProperties.ParamsStoreWithin | src/Container.php:132-155 | the same bound for the remaining parameters |
| ResolutionProperties.ParamStoresWithin | src/Container.php:142-154 | the same bound for one parameter, resolved by `build` in new mode and by `get` in stored mode |
| ResolutionProperties.BuildDoesNotStoreItself | tests/DiTest.php:50-60 | `build` of an id that is not stored leaves it unstored, for every class table, state and budget |
| ResolutionProperties.GetKeepsPending | src/Container.php:40-50 | `get` stores none of the unstored classes whose construction is under way, and fails when asked for one of them |
| ResolutionProperties.BuildKeepsPending | src/Container.php:69-72 | `build` stores none of the classes under construction, and fails when its class needs one of them |
| ResolutionProperties.CreateKeepsPending | src/Container.php:89-104 | the same for `createInstance` in stored mode |
| ResolutionProperties.DependenciesKeepPending | src/Container.php:112-158 | the same for the whole parameter list |
| ResolutionProperties.ParamsKeepPending | src/Container.php:132-155 | the remaining parameters store none of the classes under construction; on success none of them names one |
| ResolutionProperties.ParamKeepsPending | src/Container.php:142-151 | one parameter resolved with `get` stores no class under construction, and names none on success |
| ResolutionProperties.UnstoredCycleFails | src/Container.php:240-251 | `get` of a class on a cycle of unstored classes fails and stores none of them |
| ResolutionProperties.BuildStoresDirectDependencies | src/Container.php:148-151 | after a successful `build`, every direct dependency is stored |
| ResolutionProperties.NewParamsStoreDeeper | src/Container.php:148-149 | in new mode, after a successful loop, the direct dependencies of every remaining class-typed parameter are stored |
| ResolutionProperties.BuildAllStoresDeeperDependencies | src/Container.php:79-82 | after a successful `buildAll`, every dependency of a direct dependency is stored |
| ResolutionProperties.BuildAllStoresOnlyDeeper | tests/DiTest.php:73-82 | `buildAll` leaves unstored every unstored id outside a closed set that covers the unstored dependencies of its direct dependencies |
| ResolutionProperties.SelfDependencyFails | src/Container.php:240-251 | a class depending on itself fails with a cyclical dependency on itself, the edge recorded and nothing stored |
| ResolutionProperties.TwoCycleFails | tests/DiTest.php:289-299 | when A needs B and B needs A, `get(A)` fails naming B then A; both edges stay recorded and nothing is stored |
| ResolutionProperties.InterfaceDependencyFails | tests/DiTest.php:107-113 | a dependency on an interface that is not stored fails with the interface's ContainerException and stores nothing |
| ResolutionProperties.InvalidModeFailsAtFirstParameter | src/Container.php:144-154 | with an invalid mode the first edge is recorded before the failure, which is the invalid-mode error unless the edge closes a cycle |
| ResolutionProperties.DependenciesOfLeaves | src/Container.php:116-126 | an unknown id fails with a ContainerException; an interface or a class without a constructor needs nothing; neither changes the state |
| ResolutionProperties.ClearKeepsIncomingEdges | src/Container.php:182-188 | `clear` keeps every other class's row, including its edges to the cleared id |
| ResolutionProperties.ClearAllForgetsContainer | src/Container.php:215-219 | after `clearAll`, the container is no longer stored under its own class |
| ResolutionProperties.UninstantiableFailsAfterResolving | src/Container.php:93-103 | a class `new` cannot instantiate fails with a PHP `\Error` after its dependencies were resolved, keeping their edges and objects; a failure while resolving them is re-thrown as before |
| ResolutionProperties.ContainerParameterResolvesToItself | src/Container.php:142-151 | in stored mode, with the container stored under its class, a parameter of that class receives the container, whatever the budget |
| ResolutionProperties.GetFuel | src/Container.php:40-50 | a `get` that did not run out of budget gives the same result and state with one more unit |
| ResolutionProperties.BuildFuel | src/Container.php:69-72 | the same for `build` |
| ResolutionProperties.CreateFuel | src/Container.php:89-104 | the same for `createInstance` in either mode |
| ResolutionProperties.DependenciesFuel | src/Container.php:112-158 | the same for `getDependenciesFor` |
| ResolutionProperties.ParamsFuel | src/Container.php:132-155 | the same for the remaining parameters |
| ResolutionProperties.ParamFuel | src/Container.php:142-154 | the same for one parameter |
| ResolutionProperties.GetMoreFuel | src/Container.php:40-50 | a `get` that did not run out of budget gives the same result and state with any larger budget |
| ResolutionProperties.BuildMoreFuel | src/Container.php:69-72 | the same for `build` |
| ResolutionProperties.BuildAllMoreFuel | src/Container.php:79-82 | the same for `buildAll` |

## Left out

- PHP reflection (`ReflectionClass`, `getConstructor`, `getParameters`, `getClass`, `interface_exists`, `get_class`) is a
  foreign runtime. It is replaced by the immutable class table.
- Construction (`new $id(...)`) is replaced by a new handle and the recorded arguments. The class's constructor body is
  not modelled.
- Mutating an object's fields after it was handed out is not modelled. Only identity (the handle) is observable.
- Exception message formatting (`sprintf`, `fromMessage`, `fromId`) is sensitive to format details. Messages are a
  datatype of the format and its arguments.
- Class names are compared as exact strings. PHP compares them without regard to case.
- Get: the nesting budget stands for PHP's unbounded recursion. A cycle of unstored classes that no two-class check
  stops gives `StackExhausted` once the budget runs out, where PHP exhausts its stack. More budget never changes a
  result other than `StackExhausted`. The model does not prove that some budget is always enough for a call that
  succeeds in PHP. The same holds for `Build`, `BuildAll`, `CreateInstance` and `GetDependenciesFor`.
- An interface that declares a constructor is not represented: the class table gives an interface no constructor.
- The local `$relationships` array filled in `getDependenciesFor` is never read. It is not modelled.
- `map`, `unmap`, scalar parameters with default values, `USE_NEW_DEPENDENCIES` and whitespace trimming appear only in
  the tests. They are absent from `src/Container.php` and are not modelled.
- The exception classes in `src/Exceptions/` are reduced to their class names.
- The test fixtures in `tests/Classes/` are not modelled.
