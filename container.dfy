/** The `Container` class: its two maps are fields that the methods update
    in place. Every method is proved to do exactly what the function of the
    same name in `Resolution` does to the state `Snapshot()`. */
module DiContainer {
  import opened Values
  import opened Names
  import Resolution

  class Container {
    /** The classes the runtime knows (PHP reflection). */
    const table: ClassTable
    /** The container object itself, as it is injected. */
    const self: Instance
    /** `$instances`: normalized id to stored object. */
    var instances: map<TypeId, Instance>
    /** `$relationships`: dependent to the set of its recorded dependencies. */
    var relationships: map<TypeId, set<TypeId>>
    /** The handle the next constructed object receives. */
    var nextHandle: nat

    function Snapshot(): Resolution.State
      reads this
    {
      Resolution.State(instances, relationships, nextHandle)
    }

    /** `__construct`: the container stores itself. */
    constructor (table: ClassTable)
      ensures this.table == table && self == Resolution.SelfInstance
      ensures Snapshot() == Resolution.Initial()
    {
      this.table := table;
      self := Resolution.SelfInstance;
      instances := map[];
      relationships := map[];
      nextHandle := 1;
      new;
      Store(self, None);
    }

    method Has(id: TypeId) returns (b: bool)
      ensures b <==> Normalize(id) in instances
    {
      b := Normalize(id) in instances;
    }

    method Store(instance: Instance, id: Option<TypeId>)
      modifies this
      ensures Snapshot() == Resolution.Store(old(Snapshot()), instance, id)
    {
      var key := match id case None => instance.cls case Some(x) => x;
      key := Normalize(key);
      instances := instances[key := instance];
    }

    method StoreRelationship(dependent: TypeId, dependency: TypeId) returns (r: Result<()>)
      modifies this
      ensures (r, Snapshot()) == Resolution.StoreRelationship(old(Snapshot()), dependent, dependency)
    {
      var row := if dependent in relationships then relationships[dependent] else {};
      relationships := relationships[dependent := row + {dependency}];
      if dependency in relationships[dependent] && dependency in relationships && dependent in relationships[dependency] {
        return Err(Thrown(ContainerException, CyclicalDependency(dependent, dependency)));
      }
      r := Ok(());
    }

    method Get(id: TypeId, fuel: nat) returns (r: Result<Instance>)
      modifies this
      ensures (r, Snapshot()) == Resolution.Get(table, old(Snapshot()), id, fuel)
      decreases fuel, 0, 0
    {
      var n := Normalize(id);
      NormalizeIdempotent(id);
      var stored := Has(n);
      if !stored {
        if fuel == 0 {
          return Err(StackExhausted);
        }
        var instance := Build(n, fuel - 1);
        if instance.Err? {
          return Err(instance.error);
        }
        Store(instance.value, None);
      }
      r := Ok(instances[n]);
    }

    method Build(id: TypeId, fuel: nat) returns (r: Result<Instance>)
      modifies this
      ensures (r, Snapshot()) == Resolution.Build(table, old(Snapshot()), id, fuel)
      decreases fuel, 5, 0
    {
      r := CreateInstance(id, StoredDependencies, fuel);
    }

    method BuildAll(id: TypeId, fuel: nat) returns (r: Result<Instance>)
      modifies this
      ensures (r, Snapshot()) == Resolution.BuildAll(table, old(Snapshot()), id, fuel)
      decreases fuel, 5, 0
    {
      r := CreateInstance(id, NewDependencies, fuel);
    }

    method CreateInstance(id: TypeId, mode: int, fuel: nat) returns (r: Result<Instance>)
      modifies this
      ensures (r, Snapshot()) == Resolution.CreateInstance(table, old(Snapshot()), id, mode, fuel)
      decreases fuel, 4, 0
    {
      var n := Normalize(id);
      if Lookup(table, n).Interface? {
        return Err(Thrown(ContainerException, InterfaceNotInstantiable(n)));
      }
      var dependencies := GetDependenciesFor(n, mode, fuel);
      if dependencies.Err? {
        return Err(Rethrow(dependencies.error));
      }
      if Lookup(table, n).Uninstantiable? {
        // `new $id(...)` throws a `\Error`, outside the `try`.
        return Err(Thrown(EngineError, CannotInstantiate(n)));
      }
      r := Ok(Instance(n, nextHandle, dependencies.value));
      nextHandle := nextHandle + 1;
    }

    method GetDependenciesFor(id: TypeId, mode: int, fuel: nat) returns (r: Result<seq<Instance>>)
      modifies this
      ensures (r, Snapshot()) == Resolution.GetDependenciesFor(table, old(Snapshot()), id, mode, fuel)
      decreases fuel, 3, 0
    {
      var n := Normalize(id);
      var kind := Lookup(table, n);
      if kind.Unknown? {
        return Err(Thrown(ContainerException, CouldNotCreate(n)));
      }
      if !kind.Class? && !kind.Uninstantiable? {
        return Ok([]);
      }
      var parameters := kind.params;
      var dependencies: seq<Instance> := [];
      var i := 0;
      while i < |parameters|
        invariant 0 <= i <= |parameters|
        invariant Resolution.ResolveParams(table, Snapshot(), n, parameters, i, mode, fuel, dependencies)
               == Resolution.ResolveParams(table, old(Snapshot()), n, parameters, 0, mode, fuel, [])
      {
        var dependency := ResolveParameter(n, parameters[i], mode, fuel);
        if dependency.Err? {
          return Err(dependency.error);
        }
        dependencies := dependencies + [dependency.value];
        i := i + 1;
      }
      r := Ok(dependencies);
    }

    /** The body of the `foreach` in `getDependenciesFor`, for one parameter. */
    method ResolveParameter(id: TypeId, parameter: Param, mode: int, fuel: nat) returns (r: Result<Instance>)
      modifies this
      ensures (r, Snapshot()) == Resolution.ResolveParam(table, old(Snapshot()), id, parameter, mode, fuel)
      decreases fuel, 1, 0
    {
      match parameter.hint {
        case NoHint =>
          return Err(Thrown(EngineError, MemberCallOnNull));
        case BuiltinHint(typeName) =>
          return Err(Thrown(ContainerException, CannotInject(typeName, parameter.name)));
        case ClassHint(c) =>
          if Lookup(table, Normalize(c)).Unknown? {
            return Err(Thrown(ReflectionException, ClassDoesNotExist(c)));
          }
          var dependencyName := Normalize(c);
          var recorded := StoreRelationship(id, dependencyName);
          if recorded.Err? {
            return Err(recorded.error);
          }
          if mode == NewDependencies {
            if fuel == 0 {
              return Err(StackExhausted);
            }
            r := Build(dependencyName, fuel - 1);
          } else if mode == StoredDependencies {
            r := Get(dependencyName, fuel);
          } else {
            r := Err(Thrown(ContainerException, InvalidDependencyMode(mode)));
          }
      }
    }

    method Clear(id: TypeId) returns (r: Result<()>)
      modifies this
      ensures (r, Snapshot()) == Resolution.Clear(old(Snapshot()), id)
    {
      var n := Normalize(id);
      NormalizeIdempotent(id);
      var stored := Has(n);
      if !stored {
        return Err(Thrown(NotFoundException, NoInstanceStored(n)));
      }
      instances := instances - {n};
      ClearRelationship(n);
      r := Ok(());
    }

    /** The "clear from the right" loop visits every row of a copy of the
        table and removes those that are `===` to `id`. */
    method ClearRelationship(id: TypeId)
      modifies this
      ensures relationships == Resolution.ClearRelationships(old(relationships), id)
      ensures instances == old(instances) && nextHandle == old(nextHandle)
    {
      relationships := relationships - {id};
      var rows := relationships;
      var unvisited := rows.Keys;
      while unvisited != {}
        invariant unvisited <= rows.Keys
        invariant relationships == rows
        invariant instances == old(instances) && nextHandle == old(nextHandle)
        decreases unvisited
      {
        var left :| left in unvisited;
        var right := rows[left];
        // An array is never `===` to a string, so this `unset` removes nothing.
        relationships := if StrictlyEqual(PhpArray(right), PhpString(id)) then relationships - {left} else relationships;
        unvisited := unvisited - {left};
      }
    }

    method ClearExcept(keep: seq<TypeId>) returns (r: Result<()>)
      modifies this
      ensures (r, Snapshot()) == Resolution.ClearExcept(old(Snapshot()), keep)
    {
      var kept: map<TypeId, Instance> := map[];
      var i := 0;
      while i < |keep|
        invariant 0 <= i <= |keep|
        invariant instances == old(instances) && relationships == old(relationships) && nextHandle == old(nextHandle)
        invariant forall k :: 0 <= k < i ==> Normalize(keep[k]) in instances
        invariant kept.Keys == Resolution.KeptIds(keep, i)
        invariant forall k :: k in kept ==> k in instances && kept[k] == instances[k]
      {
        var id := Normalize(keep[i]);
        var stored := Has(id);
        NormalizeIdempotent(keep[i]);
        if !stored {
          Resolution.ClearExceptStopsAt(Snapshot(), keep, i);
          return Err(Thrown(NotFoundException, NoInstanceStored(id)));
        }
        // The id is stored, so `get` resolves nothing and needs no budget.
        var instance := GetStoredInstance(id);
        kept := kept[id := instance];
        i := i + 1;
      }
      Resolution.KeptIdsAreNormalizedIds(keep, |keep|);
      Resolution.ClearExceptKeeps(Snapshot(), keep, kept);
      instances := kept;
      r := Ok(());
    }

    /** `get` on an id that is stored: it returns the stored object and
        changes nothing, so it needs no nesting budget. */
    method GetStoredInstance(id: TypeId) returns (instance: Instance)
      requires Normalize(id) in instances
      modifies this
      ensures instances == old(instances) && relationships == old(relationships) && nextHandle == old(nextHandle)
      ensures instance == instances[Normalize(id)]
    {
      Resolution.GetStored(table, Snapshot(), id, 0);
      var r := Get(id, 0);
      instance := r.value;
    }

    method ClearAll()
      modifies this
      ensures Snapshot() == Resolution.ClearAll(old(Snapshot()))
    {
      instances := map[];
      relationships := map[];
    }
  }
}
