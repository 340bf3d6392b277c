/** The scheduler: a queue that rotates until every unit may start. */
module Scheduling {
  import opened Prelude
  import opened Units
  import opened UnitFiles

  /** The queue, and the units started so far, in order. */
  datatype Jobs = Jobs(queue: seq<UnitId>, started: seq<UnitId>)

  type Store = map<UnitId, Unit>

  /** What the store records as required by `u`. */
  function Needs(units: Store, u: UnitId): seq<UnitId> { if u in units then units[u].required else [] }

  /** Something `u` requires is queued behind it. */
  predicate Blocked(units: Store, u: UnitId, rest: seq<UnitId>) {
    exists d | d in Needs(units, u) :: d in rest
  }

  /** One turn: the first job starts, or goes to the back. */
  function Rotate(units: Store, j: Jobs): Jobs
    requires j.queue != []
  {
    var u, rest := j.queue[0], j.queue[1..];
    if Blocked(units, u, rest) then Jobs(rest + [u], j.started) else Jobs(rest, j.started + [u])
  }

  /** At most `n` turns. */
  function Rotations(units: Store, j: Jobs, n: nat): Jobs
    decreases n
  {
    if n == 0 || j.queue == [] then j else Rotations(units, Rotate(units, j), n - 1)
  }

  // ---------------------------------------------------------------- termination, exactly

  ghost predicate Drains(units: Store, j: Jobs) {
    exists n :: Rotations(units, j, n).queue == []
  }

  /** A set of units each of which requires another one of the set. */
  ghost predicate Knot(units: Store, knot: set<UnitId>) {
    knot != {} && forall u {:trigger Tied(units, knot, u)} | u in knot :: Tied(units, knot, u)
  }

  ghost predicate Tied(units: Store, knot: set<UnitId>, u: UnitId) {
    exists d :: d in Needs(units, u) && d in knot && d != u
  }

  /** No knot among the queued units: requirements are acyclic, up to units requiring themselves. */
  ghost predicate Untangled(units: Store, queue: seq<UnitId>) {
    forall knot: set<UnitId> | Knot(units, knot) :: !Within(knot, queue)
  }

  ghost predicate Within(knot: set<UnitId>, queue: seq<UnitId>) {
    forall u | u in knot :: u in queue
  }

  /** The members of a knot never leave the queue. */
  lemma KnotStays(units: Store, j: Jobs, knot: set<UnitId>)
    requires j.queue != [] && Knot(units, knot) && Within(knot, j.queue)
    ensures Within(knot, Rotate(units, j).queue)
  {
    var u, rest := j.queue[0], j.queue[1..];
    if u in knot {
      assert Tied(units, knot, u);
      var d :| d in Needs(units, u) && d in knot && d != u;
      assert d in rest;
      assert Blocked(units, u, rest);
    }
    forall v | v in knot ensures v in Rotate(units, j).queue {
      assert v == u || v in rest;
    }
  }

  lemma {:induction false} KnotNeverEnds(units: Store, j: Jobs, knot: set<UnitId>, n: nat)
    requires Knot(units, knot) && Within(knot, j.queue)
    ensures Rotations(units, j, n).queue != []
    decreases n
  {
    var u :| u in knot;
    assert u in j.queue;
    if n > 0 {
      KnotStays(units, j, knot);
      KnotNeverEnds(units, Rotate(units, j), knot, n - 1);
    }
  }

  /** `u` requires no other queued unit. */
  ghost predicate Free(units: Store, queue: seq<UnitId>, u: UnitId) {
    forall d | d in Needs(units, u) && d != u :: d !in queue
  }

  ghost predicate Stuck(units: Store, queue: seq<UnitId>, u: UnitId) { !Free(units, queue, u) }

  /** If nobody were free, the whole queue would be a knot. */
  lemma AllStuckIsKnot(units: Store, queue: seq<UnitId>, all: set<UnitId>)
    requires queue != [] && all == (set u | u in queue)
    requires forall u {:trigger Stuck(units, queue, u)} | u in queue :: Stuck(units, queue, u)
    ensures Knot(units, all) && Within(all, queue)
  {
    assert queue[0] in all;
    forall u | u in all ensures Tied(units, all, u) {
      assert Stuck(units, queue, u);
      var d :| d in Needs(units, u) && d != u && d in queue;
      assert d in all;
    }
  }

  lemma SomeFree(units: Store, queue: seq<UnitId>) returns (k: nat)
    requires queue != [] && Untangled(units, queue)
    ensures k < |queue| && Free(units, queue, queue[k])
  {
    if forall u {:trigger Stuck(units, queue, u)} | u in queue :: Stuck(units, queue, u) {
      AllStuckIsKnot(units, queue, set u | u in queue);
      assert false;
    }
    var u :| u in queue && !Stuck(units, queue, u);
    k :| 0 <= k < |queue| && queue[k] == u;
  }

  lemma FreeRuns(units: Store, j: Jobs)
    requires j.queue != [] && Distinct(j.queue)
    ensures Blocked(units, j.queue[0], j.queue[1..]) <==> !Free(units, j.queue, j.queue[0])
  {
    var u, rest := j.queue[0], j.queue[1..];
    assert forall d :: d in j.queue <==> d == u || d in rest;
    assert u !in rest;
  }

  /** The queue keeps its members, up to the one that may have started. */
  lemma RotateMembers(units: Store, j: Jobs)
    requires j.queue != [] && Distinct(j.queue)
    ensures
      var t, u := Rotate(units, j), j.queue[0];
      && Distinct(t.queue)
      && (t.started == j.started ==> forall v :: v in t.queue <==> v in j.queue)
      && (t.started != j.started ==> t.started == j.started + [u] && u !in t.queue && forall v :: v in t.queue <==> v in j.queue && v != u)
  {
    var u, rest := j.queue[0], j.queue[1..];
    assert forall v :: v in j.queue <==> v == u || v in rest;
    assert u !in rest;
  }

  /** Every turn shortens the queue or brings a free unit one place nearer to its front. */
  lemma {:induction false} FreeTerminates(units: Store, j: Jobs, k: nat) returns (n: nat)
    requires Distinct(j.queue) && Untangled(units, j.queue)
    requires j.queue != [] ==> k < |j.queue| && Free(units, j.queue, j.queue[k])
    ensures Rotations(units, j, n).queue == []
    decreases |j.queue|, k
  {
    if j.queue == [] {
      n := 0;
    } else {
      var t := Rotate(units, j);
      RotateMembers(units, j);
      FreeRuns(units, j);
      forall knot: set<UnitId> | Knot(units, knot) ensures !Within(knot, t.queue) {
        var u :| u in knot && u !in j.queue;
      }
      if |t.queue| < |j.queue| {
        var next := 0;
        if t.queue != [] { next := SomeFree(units, t.queue); }
        n := FreeTerminates(units, t, next);
      } else {
        n := FreeTerminates(units, t, k - 1);
      }
      n := n + 1;
    }
  }

  /** `step` ends exactly when the queued units are untangled. */
  lemma StepTerminatesIff(units: Store, j: Jobs)
    requires Distinct(j.queue)
    ensures Drains(units, j) <==> Untangled(units, j.queue)
  {
    if Untangled(units, j.queue) {
      var k := 0;
      if j.queue != [] { k := SomeFree(units, j.queue); }
      var n := FreeTerminates(units, j, k);
    } else {
      var knot: set<UnitId> :| Knot(units, knot) && Within(knot, j.queue);
      forall n: nat ensures Rotations(units, j, n).queue != [] { KnotNeverEnds(units, j, knot, n); }
    }
  }

  /** Two units that require each other: `step` goes on forever. */
  lemma MutualNeverDrains(u: UnitId, v: UnitId)
    requires u != v
    ensures
      var units := map[u := Unit([v], true, true), v := Unit([u], true, true)];
      !Drains(units, Jobs([u, v], [])) && !Drains(units, Jobs([v, u], []))
  {
    var units: Store, knot := map[u := Unit([v], true, true), v := Unit([u], true, true)], {u, v};
    assert v in Needs(units, u) && u in Needs(units, v);
    assert Tied(units, knot, u) && Tied(units, knot, v);
    StepTerminatesIff(units, Jobs([u, v], []));
    StepTerminatesIff(units, Jobs([v, u], []));
    assert u in knot && Knot(units, knot) && Within(knot, [u, v]) && Within(knot, [v, u]);
  }

  // ---------------------------------------------------------------- order

  /** Started and queued units together are the units queued at first, each once. */
  ghost predicate Shared(all: seq<UnitId>, j: Jobs) {
    && multiset(j.started) + multiset(j.queue) == multiset(all)
    && Distinct(j.queue)
  }

  /** The `i`-th unit started after every queued unit it requires. */
  ghost predicate After(units: Store, all: seq<UnitId>, started: seq<UnitId>, i: nat)
    requires i < |started|
  {
    forall d | d in Needs(units, started[i]) && d != started[i] && d in all :: d in started[..i]
  }

  ghost predicate InOrder(units: Store, all: seq<UnitId>, started: seq<UnitId>) {
    forall i: nat {:trigger After(units, all, started, i)} | i < |started| :: After(units, all, started, i)
  }

  lemma TurnInOrder(units: Store, all: seq<UnitId>, j: Jobs)
    requires j.queue != [] && Shared(all, j) && InOrder(units, all, j.started)
    ensures Shared(all, Rotate(units, j)) && InOrder(units, all, Rotate(units, j).started)
  {
    var u, rest, t := j.queue[0], j.queue[1..], Rotate(units, j);
    assert j.queue == [u] + rest;
    RotateMembers(units, j);
    forall i: nat | i < |t.started| ensures After(units, all, t.started, i) {
      if i < |j.started| {
        assert After(units, all, j.started, i);
        assert t.started[..i] == j.started[..i];
      } else {
        LastInOrder(units, all, j);
      }
    }
  }

  /** The unit that starts now finds all it requires started. */
  lemma LastInOrder(units: Store, all: seq<UnitId>, j: Jobs)
    requires j.queue != [] && Shared(all, j) && Rotate(units, j).started != j.started
    ensures var t := Rotate(units, j); t.started == j.started + [j.queue[0]] && After(units, all, t.started, |j.started|)
  {
    var u, rest, t := j.queue[0], j.queue[1..], Rotate(units, j);
    assert t.started[..|j.started|] == j.started;
    forall d | d in Needs(units, u) && d != u && d in all ensures d in j.started {
      assert d in multiset(all) && d !in rest;
      assert j.queue == [u] + rest;
    }
  }

  lemma {:induction false} TurnsInOrder(units: Store, all: seq<UnitId>, j: Jobs, n: nat)
    requires Shared(all, j) && InOrder(units, all, j.started)
    ensures Shared(all, Rotations(units, j, n)) && InOrder(units, all, Rotations(units, j, n).started)
    decreases n
  {
    if n > 0 && j.queue != [] {
      TurnInOrder(units, all, j);
      TurnsInOrder(units, all, Rotate(units, j), n - 1);
    }
  }

  /** Once the queue is empty, each queued unit has started exactly once, after all it requires. */
  lemma StepRunsAll(units: Store, queue: seq<UnitId>, n: nat)
    requires Distinct(queue) && Rotations(units, Jobs(queue, []), n).queue == []
    ensures
      var started := Rotations(units, Jobs(queue, []), n).started;
      multiset(started) == multiset(queue) && InOrder(units, queue, started)
  {
    TurnsInOrder(units, queue, Jobs(queue, []), n);
  }

  // ---------------------------------------------------------------- the scheduler

  lemma {:induction false} OneRotationMore(units: Store, j: Jobs, n: nat)
    requires Rotations(units, j, n).queue != []
    ensures Rotations(units, j, n + 1) == Rotate(units, Rotations(units, j, n))
    decreases n
  {
    if n > 0 { OneRotationMore(units, Rotate(units, j), n - 1); }
  }

  /** The loaded units whose conditions are met, in order. */
  function Startable(units: Store, loaded: seq<UnitId>): seq<UnitId> {
    if loaded == [] then []
    else (if loaded[0] in units && units[loaded[0]].conditionsMet then [loaded[0]] else []) + Startable(units, loaded[1..])
  }

  lemma {:induction false} StartableAppend(units: Store, loaded: seq<UnitId>, k: nat)
    requires k < |loaded|
    ensures Startable(units, loaded[..k + 1]) == Startable(units, loaded[..k]) + Startable(units, [loaded[k]])
    decreases k
  {
    if k == 0 {
      assert loaded[..1] == [loaded[0]] && loaded[..0] == [];
    } else {
      StartableAppend(units, loaded[1..], k - 1);
      assert loaded[..k + 1][1..] == loaded[1..][..k] && loaded[..k][1..] == loaded[1..][..k - 1];
      assert loaded[1..][k - 1] == loaded[k];
    }
  }

  ghost predicate Before(xs: seq<UnitId>, u: UnitId, v: UnitId) {
    exists i, j :: 0 <= i < j < |xs| && xs[i] == u && xs[j] == v
  }

  lemma {:induction false} StartableMembers(units: Store, loaded: seq<UnitId>)
    requires Distinct(loaded)
    ensures
      var able := Startable(units, loaded);
      Distinct(able) && forall u :: u in able <==> u in loaded && u in units && units[u].conditionsMet
    decreases loaded
  {
    if loaded != [] {
      StartableMembers(units, loaded[1..]);
      assert loaded[0] !in loaded[1..] && loaded == [loaded[0]] + loaded[1..];
    }
  }

  lemma BeforeLater(xs: seq<UnitId>, u: UnitId, v: UnitId)
    requires xs != [] && (Before(xs[1..], u, v) || (u == xs[0] && v in xs[1..]))
    ensures Before(xs, u, v)
  {
    if Before(xs[1..], u, v) {
      var i, j :| 0 <= i < j < |xs[1..]| && xs[1..][i] == u && xs[1..][j] == v;
      assert xs[i + 1] == u && xs[j + 1] == v;
    } else {
      var k :| 0 <= k < |xs[1..]| && xs[1..][k] == v;
      assert xs[0] == u && xs[k + 1] == v;
    }
  }

  /** With `StartableMembers` this leaves only one list: those whose conditions are met, as loaded. */
  lemma {:induction false} StartableOrder(units: Store, loaded: seq<UnitId>, u: UnitId, v: UnitId)
    requires Distinct(loaded) && Before(Startable(units, loaded), u, v)
    ensures Before(loaded, u, v)
    decreases loaded
  {
    var able, rest := Startable(units, loaded), Startable(units, loaded[1..]);
    var i, j :| 0 <= i < j < |able| && able[i] == u && able[j] == v;
    var skip := |able| - |rest|;
    if i >= skip {
      assert rest[i - skip] == u && rest[j - skip] == v;
      StartableOrder(units, loaded[1..], u, v);
    } else {
      StartableMembers(units, loaded[1..]);
      assert u == loaded[0] && rest[j - skip] == v;
    }
    BeforeLater(loaded, u, v);
  }

  lemma JoinDistinct(xs: seq<UnitId>, ys: seq<UnitId>)
    requires Distinct(xs) && Distinct(ys) && forall x | x in xs :: x !in ys
    ensures Distinct(xs + ys)
  {
    var all := xs + ys;
    forall i, j | 0 <= i < j < |all| ensures all[i] != all[j] {
      if i < |xs| <= j { assert all[i] in xs && all[j] in ys; }
    }
  }

  class Scheduler {
    var pending: seq<UnitId>
    /** The units that were run, in order. */
    var started: seq<UnitId>

    /** No unit is queued twice, and every queued unit is in the store. */
    ghost predicate Valid(store: UnitStore)
      reads this, store
    {
      Distinct(pending) && forall u | u in pending :: u in store.units
    }

    constructor ()
      ensures pending == [] && started == []
    {
      pending, started := [], [];
    }

    /** Queues what the root brings in, as far as its conditions are met. */
    method ScheduleStart(store: UnitStore, root: UnitId) returns (ghost loaded: seq<UnitId>)
      requires Valid(store) && Terminates(store.Config(), Begin(store.units, root))
      modifies this`pending, store`units
      ensures Valid(store)
      ensures LoadedAll(store.Config(), old(store.units), root, store.units, loaded)
      ensures pending == old(pending) + Startable(store.units, loaded)
      ensures forall u :: u in pending <==> u in old(pending) || (u in loaded && store.units[u].conditionsMet)
    {
      var fetched := store.LoadUnits(root);
      loaded := fetched;
      StartableMembers(store.units, fetched);
      JoinDistinct(pending, Startable(store.units, fetched));
      Enqueue(store, fetched);
    }

    method Enqueue(store: UnitStore, fetched: seq<UnitId>)
      requires forall u | u in fetched :: u in store.units
      modifies this`pending
      ensures pending == old(pending) + Startable(store.units, fetched)
    {
      for i := 0 to |fetched|
        invariant pending == old(pending) + Startable(store.units, fetched[..i])
      {
        StartableAppend(store.units, fetched, i);
        assert [fetched[i]][1..] == [];
        if !store.units[fetched[i]].conditionsMet { continue; }
        pending := pending + [fetched[i]];
      }
      assert fetched[..|fetched|] == fetched;
    }

    /** Whether anything the job requires is still queued. */
    method MustWait(store: UnitStore, u: UnitId) returns (wait: bool)
      requires u in store.units
      ensures wait == Blocked(store.units, u, pending)
    {
      var deps := store.units[u].required;
      for i := 0 to |deps|
        invariant forall d | d in deps[..i] :: d !in pending
      {
        for k := 0 to |pending|
          invariant deps[i] !in pending[..k]
        {
          if pending[k] == deps[i] {
            assert deps[i] in Needs(store.units, u);
            return true;
          }
        }
        assert pending[..|pending|] == pending;
        assert deps[..i + 1] == deps[..i] + [deps[i]];
      }
      assert deps[..|deps|] == deps;
      wait := false;
    }

    /** Runs the queue dry: every queued unit once, after every queued unit it requires. */
    method Step(store: UnitStore)
      requires Valid(store) && Untangled(store.units, pending)
      modifies this
      ensures pending == [] && |old(started)| <= |started| && started[..|old(started)|] == old(started)
      ensures
        var ran := started[|old(started)|..];
        multiset(ran) == multiset(old(pending)) && InOrder(store.units, old(pending), ran)
    {
      ghost var units, begin, n := store.units, Jobs(pending, []), 0;
      StepTerminatesIff(units, begin);
      ghost var bound: nat :| Rotations(units, begin, bound).queue == [];
      ghost var ran := [];
      while pending != []
        invariant n <= bound
        invariant Rotations(units, begin, n) == Jobs(pending, ran)
        invariant started == old(started) + ran
        invariant forall u | u in pending :: u in store.units
        decreases bound - n
      {
        if n == bound { assert false; }
        OneRotationMore(units, begin, n);
        n := n + 1;
        var u := pending[0];
        pending := pending[1..];
        var wait := MustWait(store, u);
        if wait {
          pending := pending + [u];
        } else {
          started := started + [u];
          ran := ran + [u];
        }
      }
      StepRunsAll(units, old(pending), n);
      assert started[|old(started)|..] == ran;
    }
  }
}
