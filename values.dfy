/** The values the container works with: type identifiers, the objects it
    hands out, the class table that stands in for PHP reflection, and the
    exceptions it raises. */
module Values {

  /** A PHP class or interface name. */
  type TypeId = string

  /** The container's own class name, under which it registers itself. */
  const ContainerClass: TypeId := "Parable\\Di\\Container"

  /** The two resolution modes of `getDependenciesFor` (STORED_DEPENDENCIES
      and NEW_DEPENDENCIES). Any other integer is an invalid mode. */
  const StoredDependencies: int := 0
  const NewDependencies: int := 1

  datatype Option<T> = None | Some(value: T)

  /** An object. `handle` is its identity (PHP compares objects with `===`
      by identity); `cls` is the class it was instantiated as and `args` the
      constructor arguments it received, in order. */
  datatype Instance = Instance(cls: TypeId, handle: nat, args: seq<Instance>)

  /** The declared type of a constructor parameter: a class or interface, a
      built-in type such as `string`, or no type at all. */
  datatype TypeHint = ClassHint(name: TypeId) | BuiltinHint(typeName: string) | NoHint

  datatype Param = Param(name: string, hint: TypeHint)

  /** What reflection reports about a name: nothing (no such class), an
      interface, a class without a constructor, a class whose constructor
      declares `params` in order, or a class that `interface_exists` does
      not reject but `new` cannot instantiate (an abstract class, a trait,
      a class whose constructor is not public) with its constructor's
      `params`. */
  datatype ClassKind =
    | Unknown
    | Interface
    | NoConstructor
    | Class(params: seq<Param>)
    | Uninstantiable(params: seq<Param>)

  /** The classes known to the PHP runtime; it never changes while the
      container runs. */
  type ClassTable = map<TypeId, ClassKind>

  /** A name that is not a key is unknown. */
  function Lookup(t: ClassTable, id: TypeId): (k: ClassKind) {
    if id in t then t[id] else Unknown
  }

  /** The PHP class of a thrown value. `EngineError` is PHP's `\Error`,
      which `catch (\Exception $e)` does not catch. */
  datatype ExceptionClass = ContainerException | NotFoundException | ReflectionException | EngineError

  /** The message of a thrown value, by the format it was built from. */
  datatype Message =
    | InterfaceNotInstantiable(id: TypeId)
    | CouldNotCreate(id: TypeId)
    | CannotInject(typeName: string, param: string)
    | InvalidDependencyMode(mode: int)
    | CyclicalDependency(dependent: TypeId, dependency: TypeId)
    | NoInstanceStored(id: TypeId)
    | ClassDoesNotExist(id: TypeId)
    | MemberCallOnNull
    | CannotInstantiate(id: TypeId)

  /** A failure: a thrown exception or error, or the nesting budget running
      out where PHP would keep recursing until its stack is exhausted. */
  datatype Error = Thrown(cls: ExceptionClass, msg: Message) | StackExhausted

  datatype Result<T> = Ok(value: T) | Err(error: Error)

  /** `createInstance` turns every `\Exception` raised while resolving the
      dependencies into a ContainerException with the same message. */
  function Rethrow(e: Error): (r: Error)
    ensures r.Thrown? <==> e.Thrown?
    ensures r.Thrown? ==> r.msg == e.msg
    ensures r.Thrown? ==> (r.cls == EngineError <==> e.cls == EngineError)
    ensures r.Thrown? && r.cls != EngineError ==> r.cls == ContainerException
  {
    match e
    case Thrown(cls, msg) => if cls == EngineError then e else Thrown(ContainerException, msg)
    case StackExhausted => e
  }

  /** The two kinds of PHP value that `clearRelationship` compares: a
      string id and a row of the relationship table (an array keyed by
      dependency names). */
  datatype PhpValue = PhpString(s: string) | PhpArray(keys: set<TypeId>)

  /** PHP's `===`: values of different types are never identical. */
  predicate StrictlyEqual(a: PhpValue, b: PhpValue)
    ensures StrictlyEqual(a, b) ==> a.PhpString? == b.PhpString?
    ensures a.PhpString? && b.PhpString? ==> (StrictlyEqual(a, b) <==> a.s == b.s)
  {
    a == b
  }
}
