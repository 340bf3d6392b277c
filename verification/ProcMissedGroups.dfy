/** Concrete runs in which a waiter for a process group sleeps although a record of that group is filed. */
module ProcMissedGroups {
  import opened Prelude
  import opened ProcModel
  import opened ProcFrame
  import opened ProcRuns
  import opened ProcCounterexamples
  import WaitpidKeys

  // ---------------------------------------------------------------- what the steps of the run do

  /** `c` may move itself or its child `m` to group `g`, and nobody waits with the parent of `m`. */
  ghost predicate MayMove(s: State, c: Pid, m: Pid, g: Pid) {
    && c in s.procs && m in s.procs
    && var q := s.procs[m];
       && (q.ppid == c || m == c) && q.ppid != m && q.ppid in s.procs && s.procs[q.ppid].waitpidWaiting == []
       && q.sid != m && q.sid == s.procs[c].sid && !q.disabledSetpgid && q.pgid != g && q.pgid in s.groups
       && (g == m || g in s.groups)
  }

  lemma IdleDrain(s: State, p: Pid)
    requires p in s.procs && s.procs[p].waitpidWaiting == []
    ensures Drain(s, p) == s
  {
    assert s.procs[p := s.procs[p]] == s.procs;
  }

  lemma {:induction false} WithoutMiddle(a: seq<Pid>, x: Pid, b: seq<Pid>)
    requires x !in a && x !in b
    ensures Without(a + [x] + b, x) == a + b
    decreases a
  {
    var s := a + [x] + b;
    if a == [] {
      assert s[1..] == b && a + b == b;
      WithoutNone(b, x);
    } else {
      assert s[1..] == a[1..] + [x] + b && a + b == [a[0]] + (a[1..] + b);
      WithoutMiddle(a[1..], x, b);
    }
  }

  lemma {:induction false} WithoutNone(s: seq<Pid>, x: Pid)
    requires x !in s
    ensures Without(s, x) == s
    decreases s
  {
    if s != [] { WithoutNone(s[1..], x); }
  }

  /** `t` is `s` once `c` has moved `m`, which stands between `a` and `b` in its group, to `g`. */
  ghost predicate Moves(s: State, c: Pid, m: Pid, g: Pid, a: seq<Pid>, b: seq<Pid>, t: State) {
    && MayMove(s, c, m, g) && KernelId(5) !in s.states && m !in a && m !in b && a + b != []
    && var q := s.procs[m];
       && s.groups[q.pgid] == a + [m] + b
       && t.procs == s.procs[m := q.(pgid := g)]
       && t.groups == s.groups[q.pgid := a + b][g := (if g in s.groups then s.groups[g] else []) + [m]]
       && t == s.(procs := t.procs, groups := t.groups)
  }

  lemma MoveStep(s: State, c: Pid, m: Pid, g: Pid, a: seq<Pid>, b: seq<Pid>, t: State)
    requires Moves(s, c, m, g, a, b, t)
    ensures Leads(s, Do(Call(5, c, SetpgidCall(m, g))), t)
  {
    WithoutMiddle(a, m, b);
    assert Forget(s, KernelId(5)) == s;
    IdleDrain(s, s.procs[m].ppid);
    assert Setpgid(s, c, m, g) == SetPgid(s, m, g);
  }

  /** `t` is `s` with another child of init, the only other member of init's group. */
  ghost predicate Bears(s: State, tid: Tid, t: State) {
    && INIT in s.procs && s.procs[INIT] == Runs(10, 1, map[]) && INIT in s.groups && s.groups[INIT] == [1]
    && t == Put(s, s.nextId, Kid(tid, 1)).(nextId := s.nextId + 1, groups := s.groups[1 := [1, s.nextId]])
  }

  lemma BirthStep(s: State, tid: Tid, t: State)
    requires Bears(s, tid, t)
    ensures Leads(s, Do(ForkEvent(1, tid)), t)
  {
    assert [1] + [s.nextId] == [1, s.nextId];
  }

  /** With no children to hand over, no group becomes orphaned. */
  lemma {:induction false} NobodyRoused(s: State, cur: Pid, order: seq<Pid>)
    ensures RouseOrphans(s, s, cur, order) == s
    decreases order
  {
    if order != [] { NobodyRoused(s, cur, order[1..]); }
  }

  lemma NobodyDisowned(s: State, cur: Pid, groups: seq<Pid>)
    requires INIT in s.procs && s.procs[INIT].waitpidWaiting == []
    ensures Disown(s, cur, Order([], groups)) == s
  {
    IdleDrain(s, INIT);
    NobodyRoused(s, cur, groups);
  }

  /** `m` has one thread; nobody waits with its parent, which has no news of it, or with init. */
  ghost predicate MayDie(s: State, m: Pid, tid: Tid) {
    && INIT in s.procs && m in s.procs && m != INIT && s.procs[INIT].waitpidWaiting == [] && s.states == map[]
    && s.procs[m].threads == {tid} && !s.procs[m].status.Ending()
    && var p := s.procs[m].ppid; p in s.procs && p != m && s.procs[p].waitpidWaiting == [] && m !in s.procs[p].waitpid
  }

  function Buried(s: State, m: Pid): State
    requires m in s.procs && s.procs[m].ppid in s.procs
  {
    var d, q := Dead(s, m, 0), s.procs[m];
    var r := d.procs[q.ppid];
    Put(d, q.ppid, r.(waitpid := r.waitpid[m := Record(q.pgid, Terminated(CALM))]))
  }

  lemma DieStep(s: State, m: Pid, tid: Tid, groups: seq<Pid>)
    requires MayDie(s, m, tid)
    ensures Leads(s, Input(Death(m, tid, 0), Order([], groups), None), Buried(s, m))
  {
    var d, order, p := Dead(s, m, 0), Order([], groups), s.procs[m].ppid;
    LoneDeath(s, m, tid, 0, order);
    DeathStepIs(s, Input(Death(m, tid, 0), order, None));
    AfterExitShape(d, m, order);
    NobodyDisowned(d, m, groups);
    IdleDrain(Buried(s, m), p);
  }

  // ---------------------------------------------------------------- the run

  function Kid(tid: Tid, g: Pid): Process { Runs(tid, 1, map[]).(pgid := g) }

  /** `p` becomes `q`, and the groups become `groups`. */
  function Shifted(s: State, p: Pid, q: Process, groups: map<Pid, seq<Pid>>): State { Put(s, p, q).(groups := groups) }

  /** A child of init is born into init's group. */
  function Joined(s: State, child: Pid, tid: Tid): State {
    Put(s, child, Kid(tid, 1)).(nextId := child + 1, groups := s.groups[1 := [1, child]])
  }

  const ONE_KID := Joined(Claimed(10), 2, 20)
  const TWO_LEADS := Shifted(ONE_KID, 2, Kid(20, 2), ONE_KID.groups[1 := [1]][2 := [2]])
  const THREE_BORN := Joined(TWO_LEADS, 3, 30)
  const THREE_LEADS := Shifted(THREE_BORN, 3, Kid(30, 3), THREE_BORN.groups[1 := [1]][3 := [3]])
  const FOUR_BORN := Joined(THREE_LEADS, 4, 40)
  const FOUR_JOINS := Shifted(FOUR_BORN, 4, Kid(40, 2), FOUR_BORN.groups[1 := [1]][2 := [2, 4]])
  const TWO_CROSSES := Shifted(FOUR_JOINS, 2, Kid(20, 3), FOUR_JOINS.groups[2 := [4]][3 := [3, 2]])
  const CROSSED := Shifted(TWO_CROSSES, 3, Kid(30, 2), TWO_CROSSES.groups[3 := [2]][2 := [4, 3]])

  const FIRST_DIED := Buried(CROSSED, 2)
  const BOTH_DIED := Buried(FIRST_DIED, 3)
  const BOTH_RECORDS: map<Pid, Record> := map[2 := Record(3, Terminated(CALM)), 3 := Record(2, Terminated(CALM))]

  /** Two children swap groups, with a third keeping the group alive, and both exit. */
  const CROSSING: seq<Input> := [
    Do(ForkEvent(1, 20)),
    Do(Call(5, 1, SetpgidCall(2, 2))),
    Do(ForkEvent(1, 30)),
    Do(Call(5, 1, SetpgidCall(3, 3))),
    Do(ForkEvent(1, 40)),
    Do(Call(5, 1, SetpgidCall(4, 2))),
    Do(Call(5, 1, SetpgidCall(2, 3))),
    Do(Call(5, 1, SetpgidCall(3, 2))),
    Input(Death(2, 20, 0), Order([], [3]), None),
    Input(Death(3, 30, 0), Order([], [2]), None)
  ]

  lemma AllBear()
    ensures Bears(Claimed(10), 20, ONE_KID) && Bears(TWO_LEADS, 30, THREE_BORN) && Bears(THREE_LEADS, 40, FOUR_BORN)
  {}

  lemma TwoMoves()
    ensures Moves(ONE_KID, 1, 2, 2, [1], [], TWO_LEADS) && Moves(FOUR_JOINS, 1, 2, 3, [], [4], TWO_CROSSES)
  {
    assert [1] + [] == [1] && [] + [2] == [2] && [] + [4] == [4] && [3] + [2] == [3, 2];
  }

  lemma ThreeMoves()
    ensures Moves(THREE_BORN, 1, 3, 3, [1], [], THREE_LEADS) && Moves(TWO_CROSSES, 1, 3, 2, [], [2], CROSSED)
  {
    assert [1] + [] == [1] && [] + [3] == [3] && [] + [2] == [2] && [4] + [3] == [4, 3];
  }

  lemma FourMoves()
    ensures Moves(FOUR_BORN, 1, 4, 2, [1], [], FOUR_JOINS)
  {
    assert [1] + [] == [1] && [2] + [4] == [2, 4];
  }

  lemma FirstMayDie()
    ensures MayDie(CROSSED, 2, 20)
  {}

  lemma SecondMayDie()
    ensures MayDie(FIRST_DIED, 3, 30)
  {}

  lemma BothRecorded()
    ensures BOTH_DIED.procs[1].waitpid == BOTH_RECORDS && BOTH_DIED.awoken == []
    ensures 3 in BOTH_DIED.procs && BOTH_DIED.procs[3].ppid == 1 && BOTH_DIED.groups == CROSSED.groups
  {}

  lemma BirthAt(ins: seq<Input>, k: nat, s: State, tid: Tid, t: State)
    requires k < |ins| && At(ins, k, s) && Bears(s, tid, t) && ins[k] == Do(ForkEvent(1, tid))
    ensures At(ins, k + 1, t)
  {
    BirthStep(s, tid, t);
    Then(ins, k, s, t);
  }

  lemma MoveAt(ins: seq<Input>, k: nat, s: State, c: Pid, m: Pid, g: Pid, a: seq<Pid>, b: seq<Pid>, t: State)
    requires k < |ins| && At(ins, k, s) && Moves(s, c, m, g, a, b, t) && ins[k] == Do(Call(5, c, SetpgidCall(m, g)))
    ensures At(ins, k + 1, t)
  {
    MoveStep(s, c, m, g, a, b, t);
    Then(ins, k, s, t);
  }

  lemma DeathAt(ins: seq<Input>, k: nat, s: State, m: Pid, tid: Tid, groups: seq<Pid>)
    requires k < |ins| && At(ins, k, s) && MayDie(s, m, tid) && ins[k] == Input(Death(m, tid, 0), Order([], groups), None)
    ensures At(ins, k + 1, Buried(s, m))
  {
    DieStep(s, m, tid, groups);
    Then(ins, k, s, Buried(s, m));
  }

  lemma CrossingAt1(ins: seq<Input>)
    requires ins == CROSSING
    ensures At(ins, 1, ONE_KID)
  {
    assert At(ins, 0, Claimed(10));
    AllBear();
    BirthAt(ins, 0, Claimed(10), 20, ONE_KID);
  }

  lemma CrossingAt2(ins: seq<Input>)
    requires ins == CROSSING
    ensures At(ins, 2, TWO_LEADS)
  {
    CrossingAt1(ins);
    TwoMoves();
    MoveAt(ins, 1, ONE_KID, 1, 2, 2, [1], [], TWO_LEADS);
  }

  lemma CrossingAt3(ins: seq<Input>)
    requires ins == CROSSING
    ensures At(ins, 3, THREE_BORN)
  {
    CrossingAt2(ins);
    AllBear();
    BirthAt(ins, 2, TWO_LEADS, 30, THREE_BORN);
  }

  lemma CrossingAt4(ins: seq<Input>)
    requires ins == CROSSING
    ensures At(ins, 4, THREE_LEADS)
  {
    CrossingAt3(ins);
    ThreeMoves();
    MoveAt(ins, 3, THREE_BORN, 1, 3, 3, [1], [], THREE_LEADS);
  }

  lemma CrossingAt5(ins: seq<Input>)
    requires ins == CROSSING
    ensures At(ins, 5, FOUR_BORN)
  {
    CrossingAt4(ins);
    AllBear();
    BirthAt(ins, 4, THREE_LEADS, 40, FOUR_BORN);
  }

  lemma CrossingAt6(ins: seq<Input>)
    requires ins == CROSSING
    ensures At(ins, 6, FOUR_JOINS)
  {
    CrossingAt5(ins);
    FourMoves();
    MoveAt(ins, 5, FOUR_BORN, 1, 4, 2, [1], [], FOUR_JOINS);
  }

  lemma CrossingAt7(ins: seq<Input>)
    requires ins == CROSSING
    ensures At(ins, 7, TWO_CROSSES)
  {
    CrossingAt6(ins);
    TwoMoves();
    MoveAt(ins, 6, FOUR_JOINS, 1, 2, 3, [], [4], TWO_CROSSES);
  }

  lemma CrossingAt8(ins: seq<Input>)
    requires ins == CROSSING
    ensures At(ins, 8, CROSSED)
  {
    CrossingAt7(ins);
    ThreeMoves();
    MoveAt(ins, 7, TWO_CROSSES, 1, 3, 2, [], [2], CROSSED);
  }

  lemma CrossingAt9(ins: seq<Input>)
    requires ins == CROSSING
    ensures At(ins, 9, FIRST_DIED)
  {
    CrossingAt8(ins);
    FirstMayDie();
    DeathAt(ins, 8, CROSSED, 2, 20, [3]);
  }

  lemma CrossingAt10(ins: seq<Input>)
    requires ins == CROSSING
    ensures At(ins, 10, BOTH_DIED)
  {
    CrossingAt9(ins);
    SecondMayDie();
    DeathAt(ins, 9, FIRST_DIED, 3, 30, [2]);
  }

  lemma CrossingRun(ins: seq<Input>)
    requires ins == CROSSING
    ensures Run(Claimed(10), ins) == BOTH_DIED
  {
    CrossingAt10(ins);
    assert ins[..10] == ins;
  }

  // ---------------------------------------------------------------- the search that misses

  const TREE := WaitpidKeys.Leaf([WaitpidKeys.Key(Some(2), Some(3)), WaitpidKeys.Key(Some(3), Some(2))])
  const ASK_GROUP := Call(9, 1, Waitpid(ProcGroup(2), NO_FLAGS))

  lemma SearchMisses()
    ensures WaitpidKeys.Holds(TREE, BOTH_RECORDS) && WaitpidKeys.Search(TREE, WaitpidKeys.ByPgid(2)).None?
  {}

  /** The call is suspended, nothing is queued, and init's records are untouched. */
  ghost predicate Sleeps(s: State, t: State, g: Pid) {
    && t.awoken == s.awoken && KernelId(9) in t.states
    && t.states[KernelId(9)] == AwaitingStatusChange(INIT, ProcGroup(g), NO_FLAGS)
    && INIT in s.procs && INIT in t.procs && t.procs[INIT].waitpid == s.procs[INIT].waitpid
  }

  /** A call for a group with a child in it, whose search came back empty, is suspended. */
  lemma AskStep(s: State, g: Pid, m: Pid, i: Input)
    requires INIT in s.procs && g in s.groups && m in s.groups[g]
    requires m in s.procs && m != INIT && s.procs[m].ppid == INIT
    requires i == Do(Call(9, INIT, Waitpid(ProcGroup(g), NO_FLAGS)))
    ensures Sleeps(s, Next(s, i), g)
  {
    var s0, id := Forget(s, KernelId(9)), KernelId(9);
    var s1 := s0.(states := s0.states[id := AwaitingStatusChange(INIT, ProcGroup(g), NO_FLAGS)]);
    assert WaitpidRefusal(s1, INIT, ProcGroup(g)).None?;
    assert Next(s, i) == Register(s1, INIT, id);
  }

  /**
   Init holds a record of group 2 and waits for group 2.  The search for it in the tree of init's
   records comes back empty, and the call is suspended with nothing left on the wake queue.
   */
  lemma GroupWaiterSleeps()
    ensures
      var s, found := Run(Claimed(10), CROSSING), WaitpidKeys.Search(TREE, WaitpidKeys.ByPgid(2));
      && s.awoken == [] && 1 in s.procs && WaitpidKeys.Holds(TREE, s.procs[1].waitpid)
      && 3 in s.procs[1].waitpid && s.procs[1].waitpid[3] == Record(2, Terminated(CALM))
      && Sleeps(s, Next(s, Input(ASK_GROUP, NO_WALK, WaitpidKeys.HitOf(found))), 2)
  {
    CrossingRun(CROSSING);
    SearchMisses();
    BothRecorded();
    assert 3 in BOTH_DIED.groups[2];
    AskStep(BOTH_DIED, 2, 3, Input(ASK_GROUP, NO_WALK, None));
  }

  // ---------------------------------------------------------------- straying beside one's own news

  const BOTH := WaitFlags(false, true, true)
  const OWN_GROUP := AwaitingStatusChange(2, AnyGroupMember, BOTH)

  const LEADER := Shifted(TWO_BORN, 3, Runs(30, 2, map[]).(pgid := 3), TWO_BORN.groups[1 := [1, 2]][3 := [3]])
  const LEADER_DIED := Buried(LEADER, 3)
  const PARENT_WAITS := Register(LEADER_DIED.(states := map[KernelId(9) := OWN_GROUP]), 2, KernelId(9))
  const STRAYED := Shifted(PARENT_WAITS, 2, PARENT_WAITS.procs[2].(pgid := 3), PARENT_WAITS.groups[1 := [1]][3 := [3, 2]])

  /** A child leads its own group and exits; its parent waits for its own group, then joins the child's. */
  const STRAYING: seq<Input> := [
    Do(ForkEvent(1, 20)),
    Do(ForkEvent(2, 30)),
    Do(Call(5, 2, SetpgidCall(3, 3))),
    Input(Death(3, 30, 0), Order([], [3]), None),
    Do(Call(9, 2, Waitpid(AnyGroupMember, BOTH))),
    Do(Call(5, 2, SetpgidCall(2, 3)))
  ]

  lemma StrayMoves()
    ensures Moves(TWO_BORN, 2, 3, 3, [1, 2], [], LEADER) && Moves(PARENT_WAITS, 2, 2, 3, [1], [], STRAYED)
  {
    assert [1, 2] + [] == [1, 2] && [] + [3] == [3] && [1] + [] == [1] && [3] + [2] == [3, 2];
  }

  /** A call for the waiter's own group, whose search came back empty, is suspended. */
  lemma AskOwnStep(s: State, w: Pid, c: Pid, flags: WaitFlags)
    requires s.states == map[] && w in s.procs && c in s.procs && s.procs[c].ppid == w && !flags.nohang
    ensures
      var id, wait := KernelId(9), AwaitingStatusChange(w, AnyGroupMember, flags);
      Leads(s, Do(Call(9, w, Waitpid(AnyGroupMember, flags))), Register(s.(states := map[id := wait]), w, id))
  {
    var s1 := s.(states := map[KernelId(9) := AwaitingStatusChange(w, AnyGroupMember, flags)]);
    assert Forget(s, KernelId(9)) == s;
    assert WaitpidRefusal(s1, w, AnyGroupMember).None?;
  }

  lemma StrayAt4(ins: seq<Input>)
    requires ins == STRAYING
    ensures At(ins, 4, LEADER_DIED)
  {
    Births(ins);
    StrayMoves();
    MoveAt(ins, 2, TWO_BORN, 2, 3, 3, [1, 2], [], LEADER);
    DeathAt(ins, 3, LEADER, 3, 30, [3]);
  }

  lemma StrayAt5(ins: seq<Input>)
    requires ins == STRAYING
    ensures At(ins, 5, PARENT_WAITS)
  {
    StrayAt4(ins);
    AskOwnStep(LEADER_DIED, 2, 3, BOTH);
    Then(ins, 4, LEADER_DIED, PARENT_WAITS);
  }

  lemma StrayingRun(ins: seq<Input>)
    requires ins == STRAYING
    ensures Run(Claimed(10), ins) == STRAYED
  {
    StrayAt5(ins);
    StrayMoves();
    MoveAt(ins, 5, PARENT_WAITS, 2, 2, 3, [1], [], STRAYED);
    assert ins[..6] == ins;
  }

  const LONE_KEY := WaitpidKeys.Leaf([WaitpidKeys.Key(Some(3), Some(3))])

  /**
   The searches of the run are what the tree of records gives.  At its end the parent's call for
   its own group is suspended, nothing is queued, and the parent holds a record of that group.
   */
  lemma OwnGroupWaiterSleeps()
    ensures
      var s := Run(Claimed(10), STRAYING);
      && s.awoken == [] && KernelId(9) in s.states && s.states[KernelId(9)] == OWN_GROUP
      && 2 in s.procs && s.procs[2].pgid == 3 && 3 in s.procs[2].waitpid && s.procs[2].waitpid[3] == Record(3, Terminated(CALM))
      && WaitpidKeys.Holds(LONE_KEY, s.procs[2].waitpid) && WaitpidKeys.Search(LONE_KEY, WaitpidKeys.ByPgid(1)).None?
  {
    StrayingRun(STRAYING);
    assert STRAYED.procs[2].waitpid == map[3 := Record(3, Terminated(CALM))];
  }
}
