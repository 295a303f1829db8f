/** The container's operations as functions from the container's state to
    a result and the next state. Each function follows one method of the
    PHP class step by step, so a failure returns the state reached at the
    point of failure: whatever was recorded or stored before it stays. */
module Resolution {
  import opened Values
  import opened Names

  /** The container's fields: `$instances`, `$relationships` (a row of
      dependency names per dependent name) and the next free object handle. */
  datatype State = State(
    instances: map<TypeId, Instance>,
    relationships: map<TypeId, set<TypeId>>,
    nextHandle: nat)

  /** The container object itself. */
  const SelfInstance: Instance := Instance(ContainerClass, 0, [])

  /** Resolution never forgets or replaces an instance stored before it
      started, and only allocates handles. */
  ghost predicate Grows(s: State, s': State) {
    && s.nextHandle <= s'.nextHandle
    && s.instances.Keys <= s'.instances.Keys
    && forall k :: k in s.instances ==> k in s'.instances && s'.instances[k] == s.instances[k]
  }

  /** `has`: whether the normalized id is stored. */
  predicate Has(s: State, id: TypeId) {
    Normalize(id) in s.instances
  }

  /** Normalizing an id before asking `has` does not change the answer. */
  lemma HasNormalizedId(s: State, id: TypeId)
    ensures Has(s, Normalize(id)) == Has(s, id)
  {
    NormalizeIdempotent(id);
  }

  /** The key `store` writes: the given id, or the object's own class. */
  function StoreKey(o: Instance, id: Option<TypeId>): (key: TypeId) {
    Normalize(match id case None => o.cls case Some(x) => x)
  }

  /** `store`: one key set to `o`, silently replacing what was there. */
  function Store(s: State, o: Instance, id: Option<TypeId>): (s': State)
    ensures Has(s', StoreKey(o, id)) && s'.instances[StoreKey(o, id)] == o
    ensures forall k :: k != StoreKey(o, id) ==>
      (k in s'.instances <==> k in s.instances) && (k in s.instances ==> s'.instances[k] == s.instances[k])
    ensures s'.relationships == s.relationships && s'.nextHandle == s.nextHandle
  {
    NormalizeIdempotent(match id case None => o.cls case Some(x) => x);
    s.(instances := s.instances[StoreKey(o, id) := o])
  }

  /** The state right after `new Container()`: empty maps, then the
      container stores itself under its own class name. */
  function Initial(): (s: State)
    ensures Has(s, ContainerClass) && s.instances[ContainerClass] == SelfInstance
    ensures s.instances.Keys == {ContainerClass}
    ensures s.relationships == map[] && s.nextHandle == 1
  {
    Store(State(map[], map[], 1), SelfInstance, None)
  }

  /** `storeRelationship`: the edge is written first, then the reverse edge
      is looked up in the updated table. */
  function StoreRelationship(s: State, dependent: TypeId, dependency: TypeId): (r: (Result<()>, State))
    ensures dependent in r.1.relationships && dependency in r.1.relationships[dependent]
    ensures forall k :: k != dependent ==>
      (k in r.1.relationships <==> k in s.relationships) && (k in s.relationships ==> r.1.relationships[k] == s.relationships[k])
    ensures dependent in s.relationships ==> r.1.relationships[dependent] == s.relationships[dependent] + {dependency}
    ensures dependent !in s.relationships ==> r.1.relationships[dependent] == {dependency}
    ensures r.1.instances == s.instances && r.1.nextHandle == s.nextHandle
    ensures r.0.Err? <==> dependent == dependency || (dependency in s.relationships && dependent in s.relationships[dependency])
    ensures r.0.Err? ==> r.0.error == Thrown(ContainerException, CyclicalDependency(dependent, dependency))
  {
    var row := if dependent in s.relationships then s.relationships[dependent] else {};
    var rel := s.relationships[dependent := row + {dependency}];
    var s1 := s.(relationships := rel);
    if dependency in rel[dependent] && dependency in rel && dependent in rel[dependency] then
      (Err(Thrown(ContainerException, CyclicalDependency(dependent, dependency))), s1)
    else
      (Ok(()), s1)
  }

  /** `get`: the stored object, or a newly built one that is then stored.
      Building is a nested construction and takes one unit of the budget. */
  function Get(t: ClassTable, s: State, id: TypeId, fuel: nat): (r: (Result<Instance>, State))
    ensures Grows(s, r.1)
    ensures r.0.Ok? ==> Has(r.1, id) && r.1.instances[Normalize(id)] == r.0.value
    ensures r.0.Ok? && !Has(s, id) ==> r.0.value.cls == Normalize(id) && s.nextHandle <= r.0.value.handle < r.1.nextHandle
    decreases fuel, 0, 0
  {
    var n := Normalize(id);
    NormalizeIdempotent(id);
    if Has(s, n) then (Ok(s.instances[n]), s)
    else if fuel == 0 then (Err(StackExhausted), s)
    else
      var (b, s1) := Build(t, s, n, fuel - 1);
      match b
      case Err(e) => (Err(e), s1)
      case Ok(o) =>
        var s2 := Store(s1, o, None);
        (Ok(s2.instances[n]), s2)
  }

  /** `build`: a new object whose dependencies are resolved with `get`. */
  function Build(t: ClassTable, s: State, id: TypeId, fuel: nat): (r: (Result<Instance>, State))
    ensures Grows(s, r.1)
    ensures r.0.Ok? ==> r.0.value.cls == Normalize(id) && s.nextHandle <= r.0.value.handle < r.1.nextHandle
    decreases fuel, 5, 0
  {
    CreateInstance(t, s, id, StoredDependencies, fuel)
  }

  /** `buildAll`: a new object whose direct dependencies are each built
      with `build`. */
  function BuildAll(t: ClassTable, s: State, id: TypeId, fuel: nat): (r: (Result<Instance>, State))
    ensures Grows(s, r.1)
    ensures r.0.Ok? ==> r.0.value.cls == Normalize(id) && s.nextHandle <= r.0.value.handle < r.1.nextHandle
  {
    CreateInstance(t, s, id, NewDependencies, fuel)
  }

  /** `createInstance`: interfaces are refused; failures while resolving the
      dependencies are re-thrown as container exceptions; on success a fresh
      object of class `Normalize(id)` receives the dependencies. A class
      `new` cannot instantiate fails only after its dependencies were
      resolved, with a PHP `\Error` that is not converted. */
  function CreateInstance(t: ClassTable, s: State, id: TypeId, mode: int, fuel: nat): (r: (Result<Instance>, State))
    ensures Grows(s, r.1)
    ensures r.0.Ok? ==> r.0.value.cls == Normalize(id) && s.nextHandle <= r.0.value.handle < r.1.nextHandle
    ensures r.0.Ok? ==> Lookup(t, Normalize(id)).Class? || Lookup(t, Normalize(id)).NoConstructor?
    ensures r.0.Err? && r.0.error.Thrown? ==> r.0.error.cls in {ContainerException, EngineError}
    decreases fuel, 4, 0
  {
    var n := Normalize(id);
    if Lookup(t, n).Interface? then (Err(Thrown(ContainerException, InterfaceNotInstantiable(n))), s)
    else
      var (d, s1) := GetDependenciesFor(t, s, n, mode, fuel);
      match d
      case Err(e) => (Err(Rethrow(e)), s1)
      case Ok(args) =>
        if Lookup(t, n).Uninstantiable? then (Err(Thrown(EngineError, CannotInstantiate(n))), s1)
        else (Ok(Instance(n, s1.nextHandle, args)), s1.(nextHandle := s1.nextHandle + 1))
  }

  /** `getDependenciesFor`: unknown names fail, a class without a
      constructor needs nothing, otherwise the constructor's parameters are
      resolved in order. */
  function GetDependenciesFor(t: ClassTable, s: State, id: TypeId, mode: int, fuel: nat): (r: (Result<seq<Instance>>, State))
    ensures Grows(s, r.1)
    decreases fuel, 3, 0
  {
    var n := Normalize(id);
    match Lookup(t, n)
    case Unknown => (Err(Thrown(ContainerException, CouldNotCreate(n))), s)
    case Interface => (Ok([]), s)
    case NoConstructor => (Ok([]), s)
    case Class(ps) => ResolveParams(t, s, n, ps, 0, mode, fuel, [])
    case Uninstantiable(ps) => ResolveParams(t, s, n, ps, 0, mode, fuel, [])
  }

  /** The `foreach` over the constructor parameters from position `i` on,
      with `acc` the dependencies resolved so far. */
  function ResolveParams(t: ClassTable, s: State, id: TypeId, ps: seq<Param>, i: nat, mode: int, fuel: nat, acc: seq<Instance>)
    : (r: (Result<seq<Instance>>, State))
    requires i <= |ps|
    ensures Grows(s, r.1)
    decreases fuel, 2, |ps| - i
  {
    if i == |ps| then (Ok(acc), s)
    else
      var (o, s1) := ResolveParam(t, s, id, ps[i], mode, fuel);
      match o
      case Err(e) => (Err(e), s1)
      case Ok(v) => ResolveParams(t, s1, id, ps, i + 1, mode, fuel, acc + [v])
  }

  /** One pass of the `foreach`: parameter `p` of the constructor of `id`.
      Only a class-typed parameter of a known class gets its edge recorded;
      the mode is inspected only after that. A nested `build` takes one unit
      of the budget; `get` takes one only when it has to build. */
  function ResolveParam(t: ClassTable, s: State, id: TypeId, p: Param, mode: int, fuel: nat): (r: (Result<Instance>, State))
    ensures Grows(s, r.1)
    decreases fuel, 1, 0
  {
    match p.hint
    case NoHint => (Err(Thrown(EngineError, MemberCallOnNull)), s)
    case BuiltinHint(typeName) => (Err(Thrown(ContainerException, CannotInject(typeName, p.name))), s)
    case ClassHint(c) =>
      if Lookup(t, Normalize(c)).Unknown? then (Err(Thrown(ReflectionException, ClassDoesNotExist(c))), s)
      else
        var dep := Normalize(c);
        var (e, s1) := StoreRelationship(s, id, dep);
        if e.Err? then (Err(e.error), s1)
        else if mode == NewDependencies then
          (if fuel == 0 then (Err(StackExhausted), s1) else Build(t, s1, dep, fuel - 1))
        else if mode == StoredDependencies then
          Get(t, s1, dep, fuel)
        else
          (Err(Thrown(ContainerException, InvalidDependencyMode(mode))), s1)
  }

  /** A stored id is answered from the store, whatever the budget. */
  lemma GetStored(t: ClassTable, s: State, id: TypeId, fuel: nat)
    requires Has(s, id)
    ensures Get(t, s, id, fuel) == (Ok(s.instances[Normalize(id)]), s)
  {
    NormalizeIdempotent(id);
  }

  /** `clearRelationship`: the id's own row is removed ("from the left");
      the second loop removes every row that is `===` to the id, and a row
      (an array) is never identical to a string. */
  function ClearRelationships(rel: map<TypeId, set<TypeId>>, id: TypeId): (r: map<TypeId, set<TypeId>>)
    ensures r == rel - {id}
  {
    var left := rel - {id};
    map l | l in left && !StrictlyEqual(PhpArray(left[l]), PhpString(id)) :: left[l]
  }

  /** `clear`. */
  function Clear(s: State, id: TypeId): (r: (Result<()>, State))
    ensures !Has(s, id) ==> r == (Err(Thrown(NotFoundException, NoInstanceStored(Normalize(id)))), s)
    ensures Has(s, id) ==> r.0.Ok? && !Has(r.1, id)
    ensures Has(s, id) ==> forall k :: k != Normalize(id) ==>
      (k in r.1.instances <==> k in s.instances) && (k in s.instances ==> r.1.instances[k] == s.instances[k])
    ensures Has(s, id) ==> r.1.relationships == s.relationships - {Normalize(id)}
    ensures r.1.nextHandle == s.nextHandle
  {
    var n := Normalize(id);
    NormalizeIdempotent(id);
    if !Has(s, n) then (Err(Thrown(NotFoundException, NoInstanceStored(n))), s)
    else (Ok(()), s.(instances := s.instances - {n}, relationships := ClearRelationships(s.relationships, n)))
  }

  /** The position of the first id of `keep`, from `i` on, that is not
      stored, or `|keep|` when all of them are. */
  function FirstMissing(s: State, keep: seq<TypeId>, i: nat): (j: nat)
    requires i <= |keep|
    ensures i <= j <= |keep|
    ensures forall k :: i <= k < j ==> Has(s, keep[k])
    ensures j < |keep| ==> !Has(s, keep[j])
    decreases |keep| - i
  {
    if i == |keep| || !Has(s, keep[i]) then i else FirstMissing(s, keep, i + 1)
  }

  /** The set of normalized ids in `keep`. */
  function NormalizedIds(keep: seq<TypeId>): (ids: set<TypeId>) {
    set j | 0 <= j < |keep| :: Normalize(keep[j])
  }

  /** The normalized ids of the first `i` entries of `keep`, collected one
      at a time as the `foreach` of `clearExcept` does. */
  function KeptIds(keep: seq<TypeId>, i: nat): (ids: set<TypeId>)
    requires i <= |keep|
  {
    if i == 0 then {} else KeptIds(keep, i - 1) + {Normalize(keep[i - 1])}
  }

  lemma {:induction false} KeptIdsAreNormalizedIds(keep: seq<TypeId>, i: nat)
    requires i <= |keep|
    ensures KeptIds(keep, i) == set j | 0 <= j < i :: Normalize(keep[j])
  {
    if i > 0 {
      KeptIdsAreNormalizedIds(keep, i - 1);
      var prev := set j | 0 <= j < i - 1 :: Normalize(keep[j]);
      var all := set j | 0 <= j < i :: Normalize(keep[j]);
      assert all == prev + {Normalize(keep[i - 1])} by {
        forall x | x in all ensures x in prev + {Normalize(keep[i - 1])} {
          var j :| 0 <= j < i && x == Normalize(keep[j]);
          if j < i - 1 { assert x in prev; }
        }
      }
    }
  }

  /** `clearExcept`: every kept id must be stored; only then is the store
      replaced by the kept entries. */
  function ClearExcept(s: State, keep: seq<TypeId>): (r: (Result<()>, State))
    ensures r.0.Ok? <==> forall j :: 0 <= j < |keep| ==> Has(s, keep[j])
    ensures r.0.Err? ==> (
      && r.1 == s && r.0.error.Thrown? && r.0.error.cls == NotFoundException
      && exists j :: 0 <= j < |keep| && !Has(s, keep[j]) && r.0.error.msg == NoInstanceStored(Normalize(keep[j])))
    ensures r.0.Ok? ==> (
      && r.1.instances.Keys == NormalizedIds(keep)
      && (forall k :: k in r.1.instances ==> k in s.instances && r.1.instances[k] == s.instances[k])
      && r.1.relationships == s.relationships && r.1.nextHandle == s.nextHandle)
  {
    var j := FirstMissing(s, keep, 0);
    if j < |keep| then (Err(Thrown(NotFoundException, NoInstanceStored(Normalize(keep[j])))), s)
    else
      assert forall k :: k in NormalizedIds(keep) ==> k in s.instances;
      (Ok(()), s.(instances := map k | k in NormalizedIds(keep) :: s.instances[k]))
  }

  /** `clearExcept` stops at the first id that is not stored. */
  lemma ClearExceptStopsAt(s: State, keep: seq<TypeId>, i: nat)
    requires i < |keep| && !Has(s, keep[i])
    requires forall k :: 0 <= k < i ==> Has(s, keep[k])
    ensures ClearExcept(s, keep) == (Err(Thrown(NotFoundException, NoInstanceStored(Normalize(keep[i])))), s)
  {
  }

  /** When every kept id is stored, `clearExcept` keeps exactly those entries. */
  lemma ClearExceptKeeps(s: State, keep: seq<TypeId>, kept: map<TypeId, Instance>)
    requires forall k :: 0 <= k < |keep| ==> Has(s, keep[k])
    requires kept.Keys == NormalizedIds(keep)
    requires forall k :: k in kept ==> k in s.instances && kept[k] == s.instances[k]
    ensures ClearExcept(s, keep) == (Ok(()), s.(instances := kept))
  {
    assert FirstMissing(s, keep, 0) == |keep|;
    assert kept == map k | k in NormalizedIds(keep) :: s.instances[k];
  }

  /** `clearAll`: both maps emptied, the container's own entry included. */
  function ClearAll(s: State): (s': State)
    ensures forall id :: !Has(s', id)
    ensures s'.relationships == map[] && s'.nextHandle == s.nextHandle
  {
    s.(instances := map[], relationships := map[])
  }
}
