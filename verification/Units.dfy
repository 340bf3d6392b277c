/** Loading a unit together with everything it requires, over any way to read a single unit. */
module Units {
  import opened Prelude

  type UnitId = string

  /** A loaded unit; `required` is its `requires_weak` list. */
  datatype Unit = Unit(required: seq<UnitId>, defaultDependencies: bool, conditionsMet: bool)

  /** How unit files are read, and the target every default unit depends on once it is set. */
  datatype Config = Config(disk: UnitId -> Option<Unit>, runtimeTarget: Option<UnitId>)

  /** A loop state: the store, the units loaded by this call, and the stack of ids to visit. */
  datatype Load = Load(units: map<UnitId, Unit>, loaded: seq<UnitId>, pending: seq<UnitId>)

  function LoadSingle(c: Config, id: UnitId): Option<Unit> {
    match c.disk(id)
    case None => None
    case Some(u) =>
      if u.defaultDependencies && c.runtimeTarget.Some?
      then Some(u.(required := u.required + [c.runtimeTarget.value]))
      else Some(u)
  }

  /** One turn of the loop: the id on top of the stack is known, cannot be loaded, or is loaded. */
  function Turn(c: Config, s: Load): Load
    requires s.pending != []
  {
    var id, rest := s.pending[|s.pending| - 1], s.pending[..|s.pending| - 1];
    if id in s.units then s.(pending := rest)
    else match LoadSingle(c, id)
      case None => s.(pending := rest)
      case Some(u) => Load(s.units[id := u], s.loaded + [id], rest + u.required)
  }

  /** At most `n` turns. */
  function Turns(c: Config, s: Load, n: nat): Load
    decreases n
  {
    if n == 0 || s.pending == [] then s else Turns(c, Turn(c, s), n - 1)
  }

  function Begin(units: map<UnitId, Unit>, root: UnitId): Load { Load(units, [], [root]) }

  // ---------------------------------------------------------------- termination, exactly

  ghost predicate Terminates(c: Config, s: Load) {
    exists n :: Turns(c, s, n).pending == []
  }

  /** A finite set that holds the stack and, with each unit still to be loaded, what it requires. */
  ghost predicate Fenced(c: Config, s: Load, fence: set<UnitId>) {
    && (forall u | u in s.pending :: u in fence)
    && (forall u | u in fence && u !in s.units && LoadSingle(c, u).Some? ::
          forall d | d in LoadSingle(c, u).value.required :: d in fence)
  }

  lemma FencedTurn(c: Config, s: Load, fence: set<UnitId>)
    requires Fenced(c, s, fence) && s.pending != []
    ensures Fenced(c, Turn(c, s), fence)
    ensures
      var t := Turn(c, s);
      || |fence - t.units.Keys| < |fence - s.units.Keys|
      || (t.units == s.units && |t.pending| < |s.pending|)
  {
    var id, t := s.pending[|s.pending| - 1], Turn(c, s);
    assert id in fence;
    if t.units != s.units {
      assert fence - t.units.Keys == (fence - s.units.Keys) - {id};
    }
  }

  lemma {:induction false} FenceTerminates(c: Config, s: Load, fence: set<UnitId>) returns (n: nat)
    requires Fenced(c, s, fence)
    ensures Turns(c, s, n).pending == []
    decreases |fence - s.units.Keys|, |s.pending|
  {
    if s.pending == [] {
      n := 0;
    } else {
      FencedTurn(c, s, fence);
      n := FenceTerminates(c, Turn(c, s), fence);
      n := n + 1;
    }
  }

  /** The ids visited form such a set. */
  lemma {:induction false} VisitedIsFence(c: Config, s: Load, n: nat) returns (fence: set<UnitId>)
    requires Turns(c, s, n).pending == []
    ensures Fenced(c, s, fence)
    decreases n
  {
    if s.pending == [] {
      fence := {};
    } else {
      var id, t := s.pending[|s.pending| - 1], Turn(c, s);
      var later := VisitedIsFence(c, t, n - 1);
      fence := later + {id};
      forall u | u in s.pending ensures u in fence {
        if u != id { assert u in s.pending[..|s.pending| - 1] && u in t.pending; }
      }
      forall u, d | u in fence && u !in s.units && LoadSingle(c, u).Some? && d in LoadSingle(c, u).value.required
        ensures d in fence
      {
        if u == id { assert d in t.pending; }
      }
    }
  }

  /**
   The loading loop ends exactly when some finite set of ids holds the root and is closed under
   the requirements of units not loaded before.
   */
  lemma LoadTerminatesIff(c: Config, s: Load)
    ensures Terminates(c, s) <==> exists fence :: Fenced(c, s, fence)
  {
    if Terminates(c, s) {
      var n :| Turns(c, s, n).pending == [];
      var fence := VisitedIsFence(c, s, n);
    }
    if fence :| Fenced(c, s, fence) {
      var n := FenceTerminates(c, s, fence);
    }
  }

  // ---------------------------------------------------------------- what is loaded

  /** A chain of requirements from the root through units loaded by this call. */
  ghost predicate Chain(c: Config, before: map<UnitId, Unit>, root: UnitId, path: seq<UnitId>) {
    && path != [] && path[0] == root
    && forall i | 0 <= i < |path| - 1 :: Requires(c, before, path[i], path[i + 1])
  }

  ghost predicate Requires(c: Config, before: map<UnitId, Unit>, u: UnitId, d: UnitId) {
    u !in before && LoadSingle(c, u).Some? && d in LoadSingle(c, u).value.required
  }

  ghost predicate Reached(c: Config, before: map<UnitId, Unit>, root: UnitId, u: UnitId) {
    exists path :: Chain(c, before, root, path) && path[|path| - 1] == u
  }

  lemma ReachedStep(c: Config, before: map<UnitId, Unit>, root: UnitId, u: UnitId, d: UnitId)
    requires Reached(c, before, root, u) && Requires(c, before, u, d)
    ensures Reached(c, before, root, d)
  {
    var path :| Chain(c, before, root, path) && path[|path| - 1] == u;
    var longer := path + [d];
    forall i | 0 <= i < |longer| - 1 ensures Requires(c, before, longer[i], longer[i + 1]) {
      if i < |path| - 1 { assert Requires(c, before, path[i], path[i + 1]); }
    }
    assert Chain(c, before, root, longer);
  }

  /** `d` is dealt with: loaded, waiting, or not loadable. */
  ghost predicate Handled(c: Config, s: Load, d: UnitId) {
    d in s.units || d in s.pending || LoadSingle(c, d).None?
  }

  ghost predicate Distinct<T>(xs: seq<T>) {
    forall i, j | 0 <= i < j < |xs| :: xs[i] != xs[j]
  }

  ghost predicate Loading(c: Config, before: map<UnitId, Unit>, root: UnitId, s: Load) {
    && Distinct(s.loaded)
    && (forall u :: u in s.units <==> u in before || u in s.loaded)
    && (forall u | u in before :: s.units[u] == before[u] && u !in s.loaded)
    && (forall u | u in s.loaded :: LoadSingle(c, u) == Some(s.units[u]))
    && (forall u, d | u in s.loaded && d in s.units[u].required :: Handled(c, s, d))
    && Handled(c, s, root)
    && (forall u | u in s.loaded || u in s.pending :: Reached(c, before, root, u))
  }

  lemma TurnKeepsHandled(c: Config, s: Load, d: UnitId)
    requires s.pending != [] && Handled(c, s, d)
    ensures Handled(c, Turn(c, s), d)
  {
    var rest := s.pending[..|s.pending| - 1];
    assert d in s.pending ==> d in rest || d == s.pending[|s.pending| - 1];
  }

  lemma TurnLoads(c: Config, before: map<UnitId, Unit>, root: UnitId, s: Load)
    requires Loading(c, before, root, s) && s.pending != []
    ensures Loading(c, before, root, Turn(c, s))
  {
    var id, rest, t := s.pending[|s.pending| - 1], s.pending[..|s.pending| - 1], Turn(c, s);
    assert id in s.pending && Reached(c, before, root, id);
    TurnKeepsHandled(c, s, root);
    forall u, d | u in t.loaded && d in t.units[u].required ensures Handled(c, t, d) {
      if u in s.loaded { TurnKeepsHandled(c, s, d); }
    }
    forall u | u in t.loaded || u in t.pending ensures Reached(c, before, root, u) {
      if u !in s.loaded && u !in s.pending {
        assert Requires(c, before, id, u);
        ReachedStep(c, before, root, id, u);
      }
    }
  }

  lemma {:induction false} TurnsLoad(c: Config, before: map<UnitId, Unit>, root: UnitId, s: Load, n: nat)
    requires Loading(c, before, root, s)
    ensures Loading(c, before, root, Turns(c, s, n))
    decreases n
  {
    if n > 0 && s.pending != [] {
      TurnLoads(c, before, root, s);
      TurnsLoad(c, before, root, Turn(c, s), n - 1);
    }
  }

  lemma BeginLoads(c: Config, before: map<UnitId, Unit>, root: UnitId)
    ensures Loading(c, before, root, Begin(before, root))
  {
    assert Chain(c, before, root, [root]);
  }

  /** What a finished load has done. */
  ghost predicate LoadedAll(c: Config, before: map<UnitId, Unit>, root: UnitId, units: map<UnitId, Unit>, loaded: seq<UnitId>) {
    && Distinct(loaded)
    && units.Keys == before.Keys + (set u | u in loaded)
    && (forall u | u in before :: units[u] == before[u] && u !in loaded)
    && (forall u | u in loaded :: LoadSingle(c, u) == Some(units[u]))
    && (forall u :: u in loaded <==> u !in before && LoadSingle(c, u).Some? && Reached(c, before, root, u))
  }

  lemma {:induction false} ChainLoaded(c: Config, before: map<UnitId, Unit>, root: UnitId, s: Load, path: seq<UnitId>, k: nat)
    requires Loading(c, before, root, s) && s.pending == [] && Chain(c, before, root, path) && k < |path|
    ensures path[k] in s.units || LoadSingle(c, path[k]).None?
    decreases k
  {
    if k > 0 {
      ChainLoaded(c, before, root, s, path, k - 1);
      assert Requires(c, before, path[k - 1], path[k]);
      assert Handled(c, s, path[k]);
    }
  }

  /**
   When the loop ends, it has loaded exactly the loadable units that the root reaches through
   units not loaded before, each once, and has touched nothing else; so the store is closed under
   loadable requirements wherever it was before.
   */
  lemma LoadResult(c: Config, before: map<UnitId, Unit>, root: UnitId, n: nat)
    requires Turns(c, Begin(before, root), n).pending == []
    ensures
      var s := Turns(c, Begin(before, root), n);
      && LoadedAll(c, before, root, s.units, s.loaded)
      && forall u, d | u in s.loaded && d in s.units[u].required :: d in s.units || LoadSingle(c, d).None?
  {
    BeginLoads(c, before, root);
    TurnsLoad(c, before, root, Begin(before, root), n);
    var s := Turns(c, Begin(before, root), n);
    forall u ensures u in s.loaded <==> u !in before && LoadSingle(c, u).Some? && Reached(c, before, root, u) {
      if u !in before && LoadSingle(c, u).Some? && Reached(c, before, root, u) {
        var path :| Chain(c, before, root, path) && path[|path| - 1] == u;
        ChainLoaded(c, before, root, s, path, |path| - 1);
      }
    }
    forall u, d | u in s.loaded && d in s.units[u].required ensures d in s.units || LoadSingle(c, d).None? {
      assert Handled(c, s, d);
    }
  }
}
