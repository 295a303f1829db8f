/** What the container promises across calls, proved about the functions
    of `Resolution` (and so, through the method contracts, about the class). */
module ResolutionProperties {
  import opened Values
  import opened Names
  import opened Resolution

  // ---------------------------------------------------------------------
  // Identity

  /** `has("\Foo")`, `has("\\Foo")` and `has("Foo")` agree. */
  lemma HasIgnoresLeadingBackslashes(s: State, p: string, x: TypeId)
    requires AllBackslashes(p)
    ensures Has(s, p + x) == Has(s, x)
  {
    NormalizeIgnoresBackslashPrefix(p, x);
  }

  // ---------------------------------------------------------------------
  // Caching

  /** A successful `get` stores what it returned, so asking again returns
      the same object and changes nothing. */
  lemma GetTwiceSameInstance(t: ClassTable, s: State, id: TypeId, fuel: nat, fuel': nat)
    requires Get(t, s, id, fuel).0.Ok?
    ensures Get(t, Get(t, s, id, fuel).1, id, fuel') == Get(t, s, id, fuel)
  {
    var (r, s1) := Get(t, s, id, fuel);
    GetStored(t, s1, id, fuel');
  }

  /** Interfaces are never instantiated, by `build` or `buildAll`, and the
      state is left as it was. */
  lemma BuildRejectsInterfaces(t: ClassTable, s: State, id: TypeId, fuel: nat)
    requires Lookup(t, Normalize(id)).Interface?
    ensures Build(t, s, id, fuel) == (Err(Thrown(ContainerException, InterfaceNotInstantiable(Normalize(id)))), s)
    ensures BuildAll(t, s, id, fuel) == (Err(Thrown(ContainerException, InterfaceNotInstantiable(Normalize(id)))), s)
  {
  }

  // ---------------------------------------------------------------------
  // The shape of the resolved dependencies

  /** How one resolved parameter relates to the state: in stored mode it is
      the object stored under the parameter's class afterwards; in new mode
      it is an object of that class created during the call. */
  ghost predicate Resolved(s: State, s': State, mode: int, p: Param, d: Instance)
    requires p.hint.ClassHint?
  {
    var dep := Normalize(p.hint.name);
    && (mode == StoredDependencies ==> dep in s'.instances && s'.instances[dep] == d)
    && (mode == NewDependencies ==> d.cls == dep && s.nextHandle <= d.handle < s'.nextHandle)
  }

  lemma {:induction false} ResolveParamsShape(t: ClassTable, s: State, id: TypeId, ps: seq<Param>, i: nat, mode: int, fuel: nat, acc: seq<Instance>)
    requires i <= |ps|
    ensures var (r, s') := ResolveParams(t, s, id, ps, i, mode, fuel, acc);
      r.Ok? ==> (
        && |r.value| == |acc| + |ps| - i && r.value[..|acc|] == acc
        && (i < |ps| ==> mode == StoredDependencies || mode == NewDependencies)
        && forall j :: i <= j < |ps| ==> ps[j].hint.ClassHint? && Resolved(s, s', mode, ps[j], r.value[|acc| + j - i]))
    decreases |ps| - i
  {
    if i < |ps| {
      var (o, s1) := ResolveParam(t, s, id, ps[i], mode, fuel);
      if o.Ok? {
        var (r, s') := ResolveParams(t, s1, id, ps, i + 1, mode, fuel, acc + [o.value]);
        assert (r, s') == ResolveParams(t, s, id, ps, i, mode, fuel, acc);
        ResolveParamsShape(t, s1, id, ps, i + 1, mode, fuel, acc + [o.value]);
        if r.Ok? {
          var dep := Normalize(ps[i].hint.name);
          NormalizeIdempotent(ps[i].hint.name);
          assert r.value[..|acc| + 1] == acc + [o.value];
          assert r.value[|acc|] == o.value by {
            assert r.value[..|acc| + 1][|acc|] == o.value;
          }
          assert r.value[..|acc|] == (acc + [o.value])[..|acc|];
          assert Resolved(s, s', mode, ps[i], o.value);
          forall j | i < j < |ps| ensures ps[j].hint.ClassHint? && Resolved(s, s', mode, ps[j], r.value[|acc| + j - i]) {
            assert Resolved(s1, s', mode, ps[j], r.value[|acc + [o.value]| + j - (i + 1)]);
          }
        }
      }
    }
  }

  /** `getDependenciesFor` on a class with a constructor: on success, one
      dependency per parameter, in declaration order, and every parameter is
      class-typed; with no parameters any mode is accepted, otherwise the
      mode must be valid. */
  lemma DependenciesShape(t: ClassTable, s: State, id: TypeId, mode: int, fuel: nat)
    requires Lookup(t, Normalize(id)).Class?
    ensures var ps := Lookup(t, Normalize(id)).params;
      var (r, s') := GetDependenciesFor(t, s, id, mode, fuel);
      r.Ok? ==> (
        && |r.value| == |ps|
        && (ps != [] ==> mode == StoredDependencies || mode == NewDependencies)
        && forall j :: 0 <= j < |ps| ==> ps[j].hint.ClassHint? && Resolved(s, s', mode, ps[j], r.value[j]))
  {
    var ps := Lookup(t, Normalize(id)).params;
    ResolveParamsShape(t, s, Normalize(id), ps, 0, mode, fuel, []);
  }

  /** `build` hands each constructor argument the object stored under the
      parameter's class, and an object stored before the call is reused. */
  lemma BuildUsesStoredDependencies(t: ClassTable, s: State, id: TypeId, fuel: nat)
    requires Lookup(t, Normalize(id)).Class?
    requires Build(t, s, id, fuel).0.Ok?
    ensures var ps := Lookup(t, Normalize(id)).params;
      var (r, s') := Build(t, s, id, fuel);
      && |r.value.args| == |ps|
      && forall j :: 0 <= j < |ps| ==> (
        && ps[j].hint.ClassHint?
        && Has(s', ps[j].hint.name) && r.value.args[j] == s'.instances[Normalize(ps[j].hint.name)]
        && (Has(s, ps[j].hint.name) ==> r.value.args[j] == s.instances[Normalize(ps[j].hint.name)]))
  {
    var n := Normalize(id);
    NormalizeIdempotent(id);
    DependenciesShape(t, s, n, StoredDependencies, fuel);
  }

  /** `buildAll` hands each constructor argument a new object of the
      parameter's class, created during the call. */
  lemma BuildAllUsesNewDependencies(t: ClassTable, s: State, id: TypeId, fuel: nat)
    requires Lookup(t, Normalize(id)).Class?
    requires BuildAll(t, s, id, fuel).0.Ok?
    ensures var ps := Lookup(t, Normalize(id)).params;
      var (r, s') := BuildAll(t, s, id, fuel);
      && |r.value.args| == |ps|
      && forall j :: 0 <= j < |ps| ==> (
        && ps[j].hint.ClassHint?
        && r.value.args[j].cls == Normalize(ps[j].hint.name)
        && s.nextHandle <= r.value.args[j].handle < r.value.handle)
  {
    var n := Normalize(id);
    NormalizeIdempotent(id);
    DependenciesShape(t, s, n, NewDependencies, fuel);
  }

  /** A class that depends on the container receives the container itself. */
  lemma ContainerInjectsItself(t: ClassTable, id: TypeId, fuel: nat, j: nat)
    requires Lookup(t, Normalize(id)).Class?
    requires j < |Lookup(t, Normalize(id)).params|
    requires Lookup(t, Normalize(id)).params[j].hint == ClassHint(ContainerClass)
    requires Build(t, Initial(), id, fuel).0.Ok?
    ensures var o := Build(t, Initial(), id, fuel).0.value;
      j < |o.args| && o.args[j] == SelfInstance
  {
    BuildUsesStoredDependencies(t, Initial(), id, fuel);
  }

  /** A class `d` whose constructor takes one `n`, where `n` has no
      constructor: `build(d)` succeeds, stores `n` (or reuses it) and not
      `d`; `buildAll(d)` succeeds, stores nothing and hands `d` a new `n`,
      never one stored before the call. */
  lemma {:induction false} OneDependencyScenario(t: ClassTable, s: State, d: TypeId, n: TypeId, p: string, fuel: nat)
    requires d == Normalize(d) && n == Normalize(n) && d != n
    requires Lookup(t, d) == Class([Param(p, ClassHint(n))]) && Lookup(t, n) == NoConstructor
    requires !Has(s, d) && !(n in s.relationships && d in s.relationships[n])
    requires fuel > 0
    ensures var (r, s') := Build(t, s, d, fuel);
      && r.Ok? && Has(s', n) && !Has(s', d) && r.value.args == [s'.instances[n]]
      && (Has(s, n) ==> r.value.args == [s.instances[n]])
    ensures var (r, s') := BuildAll(t, s, d, fuel);
      && r.Ok? && s'.instances == s.instances && |r.value.args| == 1 && r.value.args[0].cls == n
      && (Has(s, n) && s.instances[n].handle < s.nextHandle ==> r.value.args[0] != s.instances[n])
  {
    var ps := [Param(p, ClassHint(n))];
    var (e, s1) := StoreRelationship(s, d, n);
    assert e.Ok?;
    // build: the dependency comes from `get`.
    var (g, s2) := Get(t, s1, n, fuel);
    if !Has(s1, n) {
      assert GetDependenciesFor(t, s1, n, StoredDependencies, fuel - 1) == (Ok([]), s1);
      assert Build(t, s1, n, fuel - 1).0.Ok?;
    }
    assert g.Ok?;
    assert ResolveParam(t, s, d, ps[0], StoredDependencies, fuel) == (g, s2);
    assert [] + [g.value] == [g.value];
    assert ResolveParams(t, s, d, ps, 0, StoredDependencies, fuel, []) == ResolveParams(t, s2, d, ps, 1, StoredDependencies, fuel, [g.value]);
    assert GetDependenciesFor(t, s, d, StoredDependencies, fuel) == (Ok([g.value]), s2);
    BuildStoresWithin(t, s, d, fuel, {n});
    assert !Has(Build(t, s, d, fuel).1, d);
    // buildAll: the dependency comes from `build`.
    assert GetDependenciesFor(t, s1, n, StoredDependencies, fuel - 1) == (Ok([]), s1);
    assert Build(t, s1, n, fuel - 1) == (Ok(Instance(n, s1.nextHandle, [])), s1.(nextHandle := s1.nextHandle + 1));
    var (b, s3) := Build(t, s1, n, fuel - 1);
    assert ResolveParam(t, s, d, ps[0], NewDependencies, fuel) == (b, s3);
    assert [] + [b.value] == [b.value];
    assert ResolveParams(t, s, d, ps, 0, NewDependencies, fuel, []) == ResolveParams(t, s3, d, ps, 1, NewDependencies, fuel, [b.value]);
    assert GetDependenciesFor(t, s, d, NewDependencies, fuel) == (Ok([b.value]), s3);
  }

  // ---------------------------------------------------------------------
  // Which ids resolution may store

  /** The names of the class-typed parameters of `id`'s constructor. */
  function DirectDeps(t: ClassTable, id: TypeId): (deps: set<TypeId>) {
    match Lookup(t, id)
    case Class(ps) => set j | 0 <= j < |ps| && ps[j].hint.ClassHint? :: Normalize(ps[j].hint.name)
    case Uninstantiable(ps) => set j | 0 <= j < |ps| && ps[j].hint.ClassHint? :: Normalize(ps[j].hint.name)
    case _ => {}
  }

  /** Every direct dependency of a member of `R` is in `R` or among the
      stored ids `K`: resolving a member of `R` reaches nothing outside
      `R` that is not already stored. */
  ghost predicate Closed(t: ClassTable, R: set<TypeId>, K: set<TypeId>) {
    forall k :: k in R ==> DirectDeps(t, k) <= R + K
  }

  /** What resolving dependency `dep` in `mode` may store lies in `R`:
      `build` (new mode) resolves its direct dependencies, `get` (stored
      mode) returns a stored `dep` or builds it. */
  ghost predicate Covered(t: ClassTable, R: set<TypeId>, K: set<TypeId>, mode: int, dep: TypeId) {
    if mode == NewDependencies then DirectDeps(t, dep) <= R + K else dep in R + K
  }

  lemma GetStoresWithin(t: ClassTable, s: State, id: TypeId, fuel: nat, R: set<TypeId>)
    requires Closed(t, R, s.instances.Keys) && Normalize(id) in R + s.instances.Keys
    ensures Get(t, s, id, fuel).1.instances.Keys <= s.instances.Keys + R
    decreases fuel, 0, 0
  {
    var n := Normalize(id);
    NormalizeIdempotent(id);
    if !Has(s, n) && fuel > 0 {
      BuildStoresWithin(t, s, n, fuel - 1, R);
    }
  }

  lemma BuildStoresWithin(t: ClassTable, s: State, id: TypeId, fuel: nat, R: set<TypeId>)
    requires Closed(t, R, s.instances.Keys) && DirectDeps(t, Normalize(id)) <= R + s.instances.Keys
    ensures Build(t, s, id, fuel).1.instances.Keys <= s.instances.Keys + R
    decreases fuel, 5, 0
  {
    CreateStoresWithin(t, s, id, StoredDependencies, fuel, R);
  }

  lemma CreateStoresWithin(t: ClassTable, s: State, id: TypeId, mode: int, fuel: nat, R: set<TypeId>)
    requires Closed(t, R, s.instances.Keys)
    requires forall d :: d in DirectDeps(t, Normalize(id)) ==> Covered(t, R, s.instances.Keys, mode, d)
    ensures CreateInstance(t, s, id, mode, fuel).1.instances.Keys <= s.instances.Keys + R
    decreases fuel, 4, 0
  {
    var n := Normalize(id);
    NormalizeIdempotent(id);
    if !Lookup(t, n).Interface? {
      DependenciesStoreWithin(t, s, n, mode, fuel, R);
    }
  }

  lemma DependenciesStoreWithin(t: ClassTable, s: State, id: TypeId, mode: int, fuel: nat, R: set<TypeId>)
    requires Closed(t, R, s.instances.Keys)
    requires forall d :: d in DirectDeps(t, Normalize(id)) ==> Covered(t, R, s.instances.Keys, mode, d)
    ensures GetDependenciesFor(t, s, id, mode, fuel).1.instances.Keys <= s.instances.Keys + R
    decreases fuel, 3, 0
  {
    var n := Normalize(id);
    if Lookup(t, n).Class? || Lookup(t, n).Uninstantiable? {
      var ps := Lookup(t, n).params;
      forall j | 0 <= j < |ps| && ps[j].hint.ClassHint?
        ensures Covered(t, R, s.instances.Keys, mode, Normalize(ps[j].hint.name))
      {
        assert Normalize(ps[j].hint.name) in DirectDeps(t, n);
      }
      ParamsStoreWithin(t, s, n, ps, 0, mode, fuel, [], R);
    }
  }

  lemma ParamsStoreWithin(t: ClassTable, s: State, id: TypeId, ps: seq<Param>, i: nat, mode: int, fuel: nat, acc: seq<Instance>, R: set<TypeId>)
    requires i <= |ps| && Closed(t, R, s.instances.Keys)
    requires forall j :: i <= j < |ps| && ps[j].hint.ClassHint? ==> Covered(t, R, s.instances.Keys, mode, Normalize(ps[j].hint.name))
    ensures ResolveParams(t, s, id, ps, i, mode, fuel, acc).1.instances.Keys <= s.instances.Keys + R
    decreases fuel, 2, |ps| - i
  {
    if i < |ps| {
      ParamStoresWithin(t, s, id, ps[i], mode, fuel, R);
      var (o, s1) := ResolveParam(t, s, id, ps[i], mode, fuel);
      if o.Ok? {
        ParamsStoreWithin(t, s1, id, ps, i + 1, mode, fuel, acc + [o.value], R);
      }
    }
  }

  lemma ParamStoresWithin(t: ClassTable, s: State, id: TypeId, p: Param, mode: int, fuel: nat, R: set<TypeId>)
    requires Closed(t, R, s.instances.Keys)
    requires p.hint.ClassHint? ==> Covered(t, R, s.instances.Keys, mode, Normalize(p.hint.name))
    ensures ResolveParam(t, s, id, p, mode, fuel).1.instances.Keys <= s.instances.Keys + R
    decreases fuel, 1, 0
  {
    if p.hint.ClassHint? {
      var dep := Normalize(p.hint.name);
      NormalizeIdempotent(p.hint.name);
      var (e, s1) := StoreRelationship(s, id, dep);
      if mode == NewDependencies && fuel > 0 {
        BuildStoresWithin(t, s1, dep, fuel - 1, R);
      } else if mode == StoredDependencies {
        GetStoresWithin(t, s1, dep, fuel, R);
      }
    }
  }

  /** A successful `build` has resolved every direct dependency with `get`,
      so each of them is stored afterwards. */
  lemma BuildStoresDirectDependencies(t: ClassTable, s: State, id: TypeId, fuel: nat)
    requires Build(t, s, id, fuel).0.Ok?
    ensures DirectDeps(t, Normalize(id)) <= Build(t, s, id, fuel).1.instances.Keys
  {
    var n := Normalize(id);
    if Lookup(t, n).Class? {
      BuildUsesStoredDependencies(t, s, id, fuel);
      var ps := Lookup(t, n).params;
      forall d | d in DirectDeps(t, n) ensures d in Build(t, s, id, fuel).1.instances {
        var j :| 0 <= j < |ps| && ps[j].hint.ClassHint? && d == Normalize(ps[j].hint.name);
      }
    }
  }

  /** `buildAll` builds each direct dependency with `build`, so only what
      those builds resolve with `get` gets stored: ids that lie within some
      `R` holding the dependencies of the direct dependencies, closed up to
      the stored ids. An id outside `R` that was not stored, such as `id`
      itself or a direct dependency no other dependency needs, is still not
      stored. */
  lemma BuildAllStoresOnlyDeeper(t: ClassTable, s: State, id: TypeId, fuel: nat, R: set<TypeId>, x: TypeId)
    requires Closed(t, R, s.instances.Keys)
    requires forall d :: d in DirectDeps(t, Normalize(id)) ==> DirectDeps(t, d) <= R + s.instances.Keys
    requires x !in R && x !in s.instances
    ensures x !in BuildAll(t, s, id, fuel).1.instances
  {
    CreateStoresWithin(t, s, id, NewDependencies, fuel, R);
  }

  /** In new mode, each dependency `build` that succeeded has stored its own
      direct dependencies. */
  lemma {:induction false} NewParamsStoreDeeper(t: ClassTable, s: State, id: TypeId, ps: seq<Param>, i: nat, fuel: nat, acc: seq<Instance>)
    requires i <= |ps|
    ensures var (r, s') := ResolveParams(t, s, id, ps, i, NewDependencies, fuel, acc);
      r.Ok? ==> forall j :: i <= j < |ps| && ps[j].hint.ClassHint? ==>
        DirectDeps(t, Normalize(ps[j].hint.name)) <= s'.instances.Keys
    decreases |ps| - i
  {
    if i < |ps| {
      var (o, s1) := ResolveParam(t, s, id, ps[i], NewDependencies, fuel);
      if o.Ok? {
        NewParamsStoreDeeper(t, s1, id, ps, i + 1, fuel, acc + [o.value]);
        if ps[i].hint.ClassHint? {
          var dep := Normalize(ps[i].hint.name);
          NormalizeIdempotent(ps[i].hint.name);
          var (_, s0) := StoreRelationship(s, id, dep);
          assert ResolveParam(t, s, id, ps[i], NewDependencies, fuel) == Build(t, s0, dep, fuel - 1);
          BuildStoresDirectDependencies(t, s0, dep, fuel - 1);
        }
      }
    }
  }

  /** The lower half for `buildAll`: on success, the dependencies of every
      direct dependency are stored. */
  lemma BuildAllStoresDeeperDependencies(t: ClassTable, s: State, id: TypeId, fuel: nat, d: TypeId)
    requires BuildAll(t, s, id, fuel).0.Ok?
    requires d in DirectDeps(t, Normalize(id))
    ensures DirectDeps(t, d) <= BuildAll(t, s, id, fuel).1.instances.Keys
  {
    var n := Normalize(id);
    NormalizeIdempotent(id);
    assert Lookup(t, n).Class?;
    var ps := Lookup(t, n).params;
    var j :| 0 <= j < |ps| && ps[j].hint.ClassHint? && d == Normalize(ps[j].hint.name);
    NewParamsStoreDeeper(t, s, n, ps, 0, fuel, []);
    var (a, s1) := ResolveParams(t, s, n, ps, 0, NewDependencies, fuel, []);
    assert GetDependenciesFor(t, s, n, NewDependencies, fuel) == (a, s1);
    assert BuildAll(t, s, id, fuel).1.instances == s1.instances;
  }

  // ---------------------------------------------------------------------
  // Constructions under way

  /** `P` holds unstored classes whose construction is under way and `z` is
      the id about to be resolved: each member of `P` needs a member of `P`
      or `z`. */
  ghost predicate Pending(t: ClassTable, s: State, P: set<TypeId>, z: TypeId) {
    forall k :: k in P ==> k !in s.instances && DirectDeps(t, k) * (P + {z}) != {}
  }

  /** The same while the constructor parameters of `id`, a member of `P`,
      are being resolved: every other member of `P` needs a member of `P`. */
  ghost predicate Opened(t: ClassTable, s: State, P: set<TypeId>, id: TypeId) {
    id in P && forall k :: k in P ==> k !in s.instances && (k == id || DirectDeps(t, k) * P != {})
  }

  /** `get` stores none of the classes under construction, and fails when
      its id is one of them: PHP would rebuild it and need it again. */
  lemma GetKeepsPending(t: ClassTable, s: State, id: TypeId, fuel: nat, P: set<TypeId>)
    requires Pending(t, s, P, Normalize(id))
    ensures P !! Get(t, s, id, fuel).1.instances.Keys
    ensures Normalize(id) in P ==> Get(t, s, id, fuel).0.Err?
    decreases fuel, 0, 0
  {
    var n := Normalize(id);
    NormalizeIdempotent(id);
    if !Has(s, n) && fuel > 0 {
      if n in P {
        assert P + {n} == P;
      }
      BuildKeepsPending(t, s, n, fuel - 1, P + {n});
    }
  }

  lemma BuildKeepsPending(t: ClassTable, s: State, id: TypeId, fuel: nat, P: set<TypeId>)
    requires Opened(t, s, P, Normalize(id))
    ensures P !! Build(t, s, id, fuel).1.instances.Keys
    ensures DirectDeps(t, Normalize(id)) * P != {} ==> Build(t, s, id, fuel).0.Err?
    decreases fuel, 5, 0
  {
    CreateKeepsPending(t, s, id, fuel, P);
  }

  lemma CreateKeepsPending(t: ClassTable, s: State, id: TypeId, fuel: nat, P: set<TypeId>)
    requires Opened(t, s, P, Normalize(id))
    ensures P !! CreateInstance(t, s, id, StoredDependencies, fuel).1.instances.Keys
    ensures DirectDeps(t, Normalize(id)) * P != {} ==> CreateInstance(t, s, id, StoredDependencies, fuel).0.Err?
    decreases fuel, 4, 0
  {
    var n := Normalize(id);
    NormalizeIdempotent(id);
    if !Lookup(t, n).Interface? {
      DependenciesKeepPending(t, s, n, fuel, P);
    }
  }

  lemma DependenciesKeepPending(t: ClassTable, s: State, id: TypeId, fuel: nat, P: set<TypeId>)
    requires Opened(t, s, P, Normalize(id))
    ensures P !! GetDependenciesFor(t, s, id, StoredDependencies, fuel).1.instances.Keys
    ensures DirectDeps(t, Normalize(id)) * P != {} ==> GetDependenciesFor(t, s, id, StoredDependencies, fuel).0.Err?
    decreases fuel, 3, 0
  {
    var n := Normalize(id);
    if Lookup(t, n).Class? || Lookup(t, n).Uninstantiable? {
      var ps := Lookup(t, n).params;
      ParamsKeepPending(t, s, n, ps, 0, fuel, [], P);
      if ResolveParams(t, s, n, ps, 0, StoredDependencies, fuel, []).0.Ok? {
        forall d | d in DirectDeps(t, n) ensures d !in P {
          var j :| 0 <= j < |ps| && ps[j].hint.ClassHint? && d == Normalize(ps[j].hint.name);
        }
      }
    }
  }

  lemma ParamsKeepPending(t: ClassTable, s: State, id: TypeId, ps: seq<Param>, i: nat, fuel: nat, acc: seq<Instance>, P: set<TypeId>)
    requires i <= |ps| && Opened(t, s, P, id)
    requires (Lookup(t, id).Class? || Lookup(t, id).Uninstantiable?) && ps == Lookup(t, id).params
    ensures P !! ResolveParams(t, s, id, ps, i, StoredDependencies, fuel, acc).1.instances.Keys
    ensures ResolveParams(t, s, id, ps, i, StoredDependencies, fuel, acc).0.Ok? ==>
      forall j :: i <= j < |ps| && ps[j].hint.ClassHint? ==> Normalize(ps[j].hint.name) !in P
    decreases fuel, 2, |ps| - i
  {
    if i < |ps| {
      if ps[i].hint.ClassHint? {
        assert Normalize(ps[i].hint.name) in DirectDeps(t, id);
      }
      ParamKeepsPending(t, s, id, ps[i], fuel, P);
      var (o, s1) := ResolveParam(t, s, id, ps[i], StoredDependencies, fuel);
      if o.Ok? {
        ParamsKeepPending(t, s1, id, ps, i + 1, fuel, acc + [o.value], P);
      }
    }
  }

  lemma ParamKeepsPending(t: ClassTable, s: State, id: TypeId, p: Param, fuel: nat, P: set<TypeId>)
    requires Opened(t, s, P, id)
    requires p.hint.ClassHint? ==> Normalize(p.hint.name) in DirectDeps(t, id)
    ensures P !! ResolveParam(t, s, id, p, StoredDependencies, fuel).1.instances.Keys
    ensures ResolveParam(t, s, id, p, StoredDependencies, fuel).0.Ok? && p.hint.ClassHint? ==> Normalize(p.hint.name) !in P
    decreases fuel, 1, 0
  {
    if p.hint.ClassHint? && !Lookup(t, Normalize(p.hint.name)).Unknown? {
      var dep := Normalize(p.hint.name);
      NormalizeIdempotent(p.hint.name);
      var (e, s1) := StoreRelationship(s, id, dep);
      if e.Ok? {
        forall k | k in P ensures k !in s1.instances && DirectDeps(t, k) * (P + {dep}) != {} {
          if k == id {
            assert dep in DirectDeps(t, k) * (P + {dep});
          } else {
            var x :| x in DirectDeps(t, k) * P;
            assert x in DirectDeps(t, k) * (P + {dep});
          }
        }
        GetKeepsPending(t, s1, dep, fuel, P);
      }
    }
  }

  /** `build` never stores the id it builds: a nested `get` of that id
      would have to finish building it first, so it fails. */
  lemma BuildDoesNotStoreItself(t: ClassTable, s: State, id: TypeId, fuel: nat)
    requires !Has(s, id)
    ensures !Has(Build(t, s, id, fuel).1, id)
  {
    NormalizeIdempotent(id);
    BuildKeepsPending(t, s, id, fuel, {Normalize(id)});
  }

  /** Unstored classes that each need another of them can never be
      resolved: `get` of any of them fails and stores none of them, either
      at the two-class check or when PHP's stack runs out. */
  lemma UnstoredCycleFails(t: ClassTable, s: State, C: set<TypeId>, id: TypeId, fuel: nat)
    requires forall k :: k in C ==> k !in s.instances && DirectDeps(t, k) * C != {}
    requires Normalize(id) in C
    ensures Get(t, s, id, fuel).0.Err? && C !! Get(t, s, id, fuel).1.instances.Keys
  {
    assert C + {Normalize(id)} == C;
    GetKeepsPending(t, s, id, fuel, C);
  }

  // ---------------------------------------------------------------------
  // The nesting budget

  // One more unit of budget changes nothing unless the budget ran out:
  // `StackExhausted` is never caught, so every nested call of a call that
  // did not run out did not run out either.

  lemma GetFuel(t: ClassTable, s: State, id: TypeId, fuel: nat)
    ensures Get(t, s, id, fuel).0 != Err(StackExhausted) ==> Get(t, s, id, fuel + 1) == Get(t, s, id, fuel)
    decreases fuel, 0, 0
  {
    var n := Normalize(id);
    NormalizeIdempotent(id);
    if !Has(s, n) && fuel > 0 {
      BuildFuel(t, s, n, fuel - 1);
    }
  }

  lemma BuildFuel(t: ClassTable, s: State, id: TypeId, fuel: nat)
    ensures Build(t, s, id, fuel).0 != Err(StackExhausted) ==> Build(t, s, id, fuel + 1) == Build(t, s, id, fuel)
    decreases fuel, 5, 0
  {
    CreateFuel(t, s, id, StoredDependencies, fuel);
  }

  lemma CreateFuel(t: ClassTable, s: State, id: TypeId, mode: int, fuel: nat)
    ensures CreateInstance(t, s, id, mode, fuel).0 != Err(StackExhausted) ==>
      CreateInstance(t, s, id, mode, fuel + 1) == CreateInstance(t, s, id, mode, fuel)
    decreases fuel, 4, 0
  {
    DependenciesFuel(t, s, Normalize(id), mode, fuel);
  }

  lemma DependenciesFuel(t: ClassTable, s: State, id: TypeId, mode: int, fuel: nat)
    ensures GetDependenciesFor(t, s, id, mode, fuel).0 != Err(StackExhausted) ==>
      GetDependenciesFor(t, s, id, mode, fuel + 1) == GetDependenciesFor(t, s, id, mode, fuel)
    decreases fuel, 3, 0
  {
    var n := Normalize(id);
    if Lookup(t, n).Class? || Lookup(t, n).Uninstantiable? {
      ParamsFuel(t, s, n, Lookup(t, n).params, 0, mode, fuel, []);
    }
  }

  lemma ParamsFuel(t: ClassTable, s: State, id: TypeId, ps: seq<Param>, i: nat, mode: int, fuel: nat, acc: seq<Instance>)
    requires i <= |ps|
    ensures ResolveParams(t, s, id, ps, i, mode, fuel, acc).0 != Err(StackExhausted) ==>
      ResolveParams(t, s, id, ps, i, mode, fuel + 1, acc) == ResolveParams(t, s, id, ps, i, mode, fuel, acc)
    decreases fuel, 2, |ps| - i
  {
    if i < |ps| {
      ParamFuel(t, s, id, ps[i], mode, fuel);
      var (o, s1) := ResolveParam(t, s, id, ps[i], mode, fuel);
      if o.Ok? {
        ParamsFuel(t, s1, id, ps, i + 1, mode, fuel, acc + [o.value]);
      }
    }
  }

  lemma ParamFuel(t: ClassTable, s: State, id: TypeId, p: Param, mode: int, fuel: nat)
    ensures ResolveParam(t, s, id, p, mode, fuel).0 != Err(StackExhausted) ==>
      ResolveParam(t, s, id, p, mode, fuel + 1) == ResolveParam(t, s, id, p, mode, fuel)
    decreases fuel, 1, 0
  {
    if p.hint.ClassHint? {
      var dep := Normalize(p.hint.name);
      var (_, s1) := StoreRelationship(s, id, dep);
      if mode == StoredDependencies {
        GetFuel(t, s1, dep, fuel);
      } else if mode == NewDependencies && fuel > 0 {
        BuildFuel(t, s1, dep, fuel - 1);
      }
    }
  }

  /** A `get` that did not run out of budget behaves the same with any
      larger budget. */
  lemma {:induction false} GetMoreFuel(t: ClassTable, s: State, id: TypeId, fuel: nat, more: nat)
    requires fuel <= more && Get(t, s, id, fuel).0 != Err(StackExhausted)
    ensures Get(t, s, id, more) == Get(t, s, id, fuel)
    decreases more - fuel
  {
    if fuel < more {
      GetFuel(t, s, id, fuel);
      GetMoreFuel(t, s, id, fuel + 1, more);
    }
  }

  /** A `build` that did not run out of budget behaves the same with any
      larger budget. */
  lemma {:induction false} BuildMoreFuel(t: ClassTable, s: State, id: TypeId, fuel: nat, more: nat)
    requires fuel <= more && Build(t, s, id, fuel).0 != Err(StackExhausted)
    ensures Build(t, s, id, more) == Build(t, s, id, fuel)
    decreases more - fuel
  {
    if fuel < more {
      BuildFuel(t, s, id, fuel);
      BuildMoreFuel(t, s, id, fuel + 1, more);
    }
  }

  /** A `buildAll` that did not run out of budget behaves the same with any
      larger budget. */
  lemma {:induction false} BuildAllMoreFuel(t: ClassTable, s: State, id: TypeId, fuel: nat, more: nat)
    requires fuel <= more && BuildAll(t, s, id, fuel).0 != Err(StackExhausted)
    ensures BuildAll(t, s, id, more) == BuildAll(t, s, id, fuel)
    decreases more - fuel
  {
    if fuel < more {
      CreateFuel(t, s, id, NewDependencies, fuel);
      BuildAllMoreFuel(t, s, id, fuel + 1, more);
    }
  }

  /** A parameter of the container's class resolves, in stored mode and
      with any budget, to the container stored under that class. */
  lemma ContainerParameterResolvesToItself(t: ClassTable, s: State, id: TypeId, p: Param, fuel: nat)
    requires !Lookup(t, ContainerClass).Unknown? && p.hint == ClassHint(ContainerClass)
    requires ContainerClass in s.instances && s.instances[ContainerClass] == SelfInstance
    requires id != ContainerClass && !(ContainerClass in s.relationships && id in s.relationships[ContainerClass])
    ensures ResolveParam(t, s, id, p, StoredDependencies, fuel).0 == Ok(SelfInstance)
  {
  }

  // ---------------------------------------------------------------------
  // Failures and what they leave behind

  /** A class whose first constructor parameter is itself: the edge to itself
      is recorded and immediately closes a cycle. */
  lemma SelfDependencyFails(t: ClassTable, s: State, a: TypeId, fuel: nat)
    requires a == Normalize(a) && !Has(s, a)
    requires Lookup(t, a).Class? && |Lookup(t, a).params| > 0
    requires Lookup(t, a).params[0].hint == ClassHint(a)
    requires fuel > 0
    ensures var (r, s') := Get(t, s, a, fuel);
      && r == Err(Thrown(ContainerException, CyclicalDependency(a, a)))
      && a in s'.relationships && a in s'.relationships[a]
      && s'.instances == s.instances
  {
    var ps := Lookup(t, a).params;
    var e := Thrown(ContainerException, CyclicalDependency(a, a));
    var (_, s1) := StoreRelationship(s, a, a);
    assert ResolveParam(t, s, a, ps[0], StoredDependencies, fuel - 1) == (Err(e), s1);
    assert ResolveParams(t, s, a, ps, 0, StoredDependencies, fuel - 1, []) == (Err(e), s1);
    assert GetDependenciesFor(t, s, a, StoredDependencies, fuel - 1) == (Err(e), s1);
    assert Build(t, s, a, fuel - 1) == (Err(e), s1);
  }

  /** `a` needs `b` first and `b` needs `a` first: `get(a)` records a -> b,
      resolves `b`, records b -> a and fails there, naming `b` then `a`.
      Both edges stay recorded and nothing is stored. */
  lemma TwoCycleFails(t: ClassTable, s: State, a: TypeId, b: TypeId, fuel: nat)
    requires a == Normalize(a) && b == Normalize(b) && a != b
    requires !Has(s, a) && !Has(s, b)
    requires !(b in s.relationships && a in s.relationships[b])
    requires Lookup(t, a).Class? && |Lookup(t, a).params| > 0 && Lookup(t, a).params[0].hint == ClassHint(b)
    requires Lookup(t, b).Class? && |Lookup(t, b).params| > 0 && Lookup(t, b).params[0].hint == ClassHint(a)
    requires fuel >= 2
    ensures var (r, s') := Get(t, s, a, fuel);
      && r == Err(Thrown(ContainerException, CyclicalDependency(b, a)))
      && a in s'.relationships && b in s'.relationships[a]
      && b in s'.relationships && a in s'.relationships[b]
      && s'.instances == s.instances
  {
    var e := Thrown(ContainerException, CyclicalDependency(b, a));
    var pa, pb := Lookup(t, a).params, Lookup(t, b).params;
    var (_, s1) := StoreRelationship(s, a, b);
    var (_, s2) := StoreRelationship(s1, b, a);
    assert ResolveParam(t, s1, b, pb[0], StoredDependencies, fuel - 2) == (Err(e), s2);
    assert ResolveParams(t, s1, b, pb, 0, StoredDependencies, fuel - 2, []) == (Err(e), s2);
    assert GetDependenciesFor(t, s1, b, StoredDependencies, fuel - 2) == (Err(e), s2);
    assert Build(t, s1, b, fuel - 2) == (Err(e), s2);
    assert Get(t, s1, b, fuel - 1) == (Err(e), s2);
    assert ResolveParam(t, s, a, pa[0], StoredDependencies, fuel - 1) == (Err(e), s2);
    assert ResolveParams(t, s, a, pa, 0, StoredDependencies, fuel - 1, []) == (Err(e), s2);
    assert GetDependenciesFor(t, s, a, StoredDependencies, fuel - 1) == (Err(e), s2);
    assert Build(t, s, a, fuel - 1) == (Err(e), s2);
  }

  /** A class whose first parameter is an interface that is not stored
      cannot be resolved: the interface's message reaches the caller
      unchanged, still as a ContainerException, and nothing is stored. */
  lemma InterfaceDependencyFails(t: ClassTable, s: State, a: TypeId, i: TypeId, fuel: nat)
    requires a == Normalize(a) && i == Normalize(i) && a != i
    requires !Has(s, a) && !Has(s, i)
    requires !(i in s.relationships && a in s.relationships[i])
    requires Lookup(t, a).Class? && |Lookup(t, a).params| > 0 && Lookup(t, a).params[0].hint == ClassHint(i)
    requires Lookup(t, i).Interface?
    requires fuel >= 2
    ensures var (r, s') := Get(t, s, a, fuel);
      r == Err(Thrown(ContainerException, InterfaceNotInstantiable(i))) && s'.instances == s.instances
  {
    var e := Thrown(ContainerException, InterfaceNotInstantiable(i));
    var ps := Lookup(t, a).params;
    var (_, s1) := StoreRelationship(s, a, i);
    assert Build(t, s1, i, fuel - 2) == (Err(e), s1);
    assert Get(t, s1, i, fuel - 1) == (Err(e), s1);
    assert ResolveParam(t, s, a, ps[0], StoredDependencies, fuel - 1) == (Err(e), s1);
    assert ResolveParams(t, s, a, ps, 0, StoredDependencies, fuel - 1, []) == (Err(e), s1);
    assert GetDependenciesFor(t, s, a, StoredDependencies, fuel - 1) == (Err(e), s1);
    assert Build(t, s, a, fuel - 1) == (Err(e), s1);
  }

  /** A class reflection knows but `new` cannot instantiate (abstract, a
      trait, a non-public constructor) still has its dependencies resolved,
      with their edges and stored objects kept; then a PHP `\Error` escapes
      unconverted and no handle is allocated. */
  lemma UninstantiableFailsAfterResolving(t: ClassTable, s: State, id: TypeId, mode: int, fuel: nat)
    requires Lookup(t, Normalize(id)).Uninstantiable?
    ensures var (r, s') := CreateInstance(t, s, id, mode, fuel);
      var (d, s1) := GetDependenciesFor(t, s, Normalize(id), mode, fuel);
      && r.Err?
      && (d.Ok? ==> r == Err(Thrown(EngineError, CannotInstantiate(Normalize(id)))) && s' == s1)
      && (d.Err? ==> r == Err(Rethrow(d.error)) && s' == s1)
  {
  }

  /** With an invalid mode, `getDependenciesFor` still records the edge of
      the first class-typed parameter before it fails. */
  lemma InvalidModeFailsAtFirstParameter(t: ClassTable, s: State, id: TypeId, mode: int, fuel: nat)
    requires mode != StoredDependencies && mode != NewDependencies
    requires Lookup(t, Normalize(id)).Class?
    requires var ps := Lookup(t, Normalize(id)).params;
      |ps| > 0 && ps[0].hint.ClassHint? && !Lookup(t, Normalize(ps[0].hint.name)).Unknown?
    ensures var ps := Lookup(t, Normalize(id)).params;
      var (r, s') := GetDependenciesFor(t, s, id, mode, fuel);
      var n, dep := Normalize(id), Normalize(ps[0].hint.name);
      && r.Err? && r.error.Thrown? && r.error.cls == ContainerException
      && r.error.msg in {InvalidDependencyMode(mode), CyclicalDependency(n, dep)}
      && n in s'.relationships && dep in s'.relationships[n]
  {
    var n := Normalize(id);
    var ps := Lookup(t, n).params;
    var (o, s1) := ResolveParam(t, s, n, ps[0], mode, fuel);
    assert ResolveParams(t, s, n, ps, 0, mode, fuel, []) == (Err(o.error), s1);
  }

  /** Unknown names fail; classes without a constructor (and interfaces)
      need nothing; neither changes the state. */
  lemma DependenciesOfLeaves(t: ClassTable, s: State, id: TypeId, mode: int, fuel: nat)
    ensures Lookup(t, Normalize(id)).Unknown? ==>
      GetDependenciesFor(t, s, id, mode, fuel) == (Err(Thrown(ContainerException, CouldNotCreate(Normalize(id)))), s)
    ensures Lookup(t, Normalize(id)).NoConstructor? || Lookup(t, Normalize(id)).Interface? ==>
      GetDependenciesFor(t, s, id, mode, fuel) == (Ok([]), s)
  {
  }

  // ---------------------------------------------------------------------
  // Clearing

  /** `clear` removes the id's own row of edges but keeps every edge that
      points to it. */
  lemma ClearKeepsIncomingEdges(s: State, id: TypeId, x: TypeId)
    requires Has(s, id) && x != Normalize(id) && x in s.relationships
    ensures x in Clear(s, id).1.relationships && Clear(s, id).1.relationships[x] == s.relationships[x]
  {
  }

  /** After `clearAll` the container itself is no longer stored. */
  lemma ClearAllForgetsContainer(s: State)
    ensures !Has(ClearAll(s), ContainerClass)
  {
  }
}
