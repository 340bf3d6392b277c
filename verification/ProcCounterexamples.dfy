/** Short concrete runs in which properties one might expect fail. */
module ProcCounterexamples {
  import opened Prelude
  import opened ProcModel
  import opened ProcFrame
  import opened ProcRuns

  const NO_WALK := Order([], [])
  const NO_FLAGS := WaitFlags(false, false, false)

  function Do(e: Event): Input { Input(e, NO_WALK, None) }

  /** The input takes the first state to the second. */
  ghost predicate Leads(s: State, i: Input, t: State) { Next(s, i) == t }

  /** The first `k` inputs lead to `s`. */
  ghost predicate At(ins: seq<Input>, k: nat, s: State) { k <= |ins| && Run(Claimed(10), ins[..k]) == s }

  lemma Then(ins: seq<Input>, k: nat, s: State, t: State)
    requires k < |ins| && At(ins, k, s) && Leads(s, ins[k], t)
    ensures At(ins, k + 1, t)
  {
    assert ins[..k + 1] == ins[..k] + [ins[k]];
    RunJoin(Claimed(10), ins[..k], [ins[k]]);
    assert Run(Next(s, ins[k]), [ins[k]][1..]) == Next(s, ins[k]);
  }

  /** A process in init's group and session, owned by root. */
  function Kin(threads: set<Tid>, ppid: Pid, status: ProcessStatus, records: map<Pid, Record>, pctl: bool): Process {
    Process(threads, ppid, INIT, INIT, 0, 0, status, false, [], records, [], pctl)
  }

  // ---------------------------------------------------------------- a lost waiter

  /** Init, the records it holds, and one child. */
  function Pair(records: map<Pid, Record>, child: Process, states: map<VirtualId, PendingState>, awoken: seq<VirtualId>): State {
    State(map[1 := Kin({10}, 1, PossiblyRunnable, records, false), 2 := child], map[1 := [1, 2]], 3, 1, states, awoken)
  }

  const SEVEN := KernelId(7)
  const EIGHT := KernelId(8)
  const WAIT_ANY := AwaitingStatusChange(1, AnyChild, NO_FLAGS)
  const WAIT_THREADS := AwaitingThreadsTermination(2, true)
  const FATE := Fate(None, 3)

  /** A child is stopped, init waits for any child without WUNTRACED, and then the child exits. */
  const LOST_WAITER_RUN: seq<Input> := [
    Do(ForkEvent(1, 20)),
    Do(Call(5, 2, SyncPctl)),
    Do(Call(6, 2, Kill(2, SIGSTOP, false))),
    Do(Call(7, 1, Waitpid(AnyChild, NO_FLAGS))),
    Do(Call(8, 2, Exit(3))),
    Do(Death(2, 20, 0)),
    Do(WakeEvent),
    Do(WakeEvent)
  ]

  const FORKED := Pair(map[], Kin({20}, 1, PossiblyRunnable, map[], false), map[], [])
  const MAPPED := Pair(map[], Kin({20}, 1, PossiblyRunnable, map[], true), map[], [])
  const STOPPED := Pair(map[2 := Record(1, StoppedBy(SIGSTOP))], Kin({20}, 1, Stopped(SIGSTOP), map[], true), map[], [])
  const WAITING := Pair(map[], Kin({20}, 1, Stopped(SIGSTOP), map[], true), map[SEVEN := WAIT_ANY], [])
  const LEAVING :=
    Pair(map[], Kin({20}, 1, Exiting(FATE), map[], true).(awaitingThreadsTerm := [EIGHT, EIGHT]),
         map[SEVEN := WAIT_ANY, EIGHT := WAIT_THREADS], [])
  const ALONE :=
    Pair(map[], Kin({}, 1, Exiting(FATE), map[], true), map[SEVEN := WAIT_ANY, EIGHT := WAIT_THREADS], [EIGHT, EIGHT])
  const GONE :=
    Pair(map[2 := Record(1, Terminated(FATE))], Kin({}, 1, Exited(FATE), map[], true), map[SEVEN := WAIT_ANY], [EIGHT])
  const LOST :=
    Pair(map[2 := Record(1, Terminated(FATE))], Kin({}, 1, Exited(FATE), map[], true), map[SEVEN := WAIT_ANY], [])

  lemma ForkStep()
    ensures Leads(Claimed(10), LOST_WAITER_RUN[0], FORKED)
  {
    assert [1] + [2] == [1, 2];
  }

  lemma MapStep()
    ensures Leads(FORKED, LOST_WAITER_RUN[1], MAPPED)
  {}

  lemma StopStep()
    ensures Leads(MAPPED, LOST_WAITER_RUN[2], STOPPED)
  {}

  lemma WaitStep()
    ensures Leads(STOPPED, LOST_WAITER_RUN[3], WAITING)
  {
    var m := map[2 := Record(1, StoppedBy(SIGSTOP))];
    var s1 := STOPPED.(states := map[SEVEN := WAIT_ANY]);
    assert 2 in m && First(m) == 2;
    assert Forget(STOPPED, SEVEN) == STOPPED;
    assert s1.procs[2].ppid == 1;
    assert Pick(s1, 1, AnyChild, None) == Some((2, StoppedBy(SIGSTOP)));
    assert m - {2} == map[];
    assert TakeRecord(s1, 1, 2) == WAITING;
  }

  lemma ExitStep()
    ensures Leads(WAITING, LOST_WAITER_RUN[4], LEAVING)
  {
    assert Forget(WAITING, EIGHT) == WAITING;
    var s1 := Armed(WAITING, EIGHT, 2, FATE, true);
    assert 20 in s1.procs[2].threads;
    assert s1.procs[2].awaitingThreadsTerm == [EIGHT];
    assert [EIGHT] + [EIGHT] == [EIGHT, EIGHT];
    assert AwaitThreads(s1, EIGHT, 2) == LEAVING;
    assert WorkOn(s1, EIGHT, NO_WALK, None).0 == AwaitThreads(s1, EIGHT, 2);
  }

  lemma DeathStep()
    ensures Leads(LEAVING, LOST_WAITER_RUN[5], ALONE)
  {
    assert {20} - {20} == {};
    assert 20 in LEAVING.procs[2].threads;
    assert WakeAwaiting(DropThread(LEAVING, 2, 20), 2) == ALONE;
  }

  lemma CompleteStep()
    ensures Leads(ALONE, LOST_WAITER_RUN[6], GONE)
  {
    var s := ALONE.(awoken := [EIGHT]);
    var s1 := Pair(map[], Kin({}, 1, Exited(FATE), map[], true), map[SEVEN := WAIT_ANY], [EIGHT]);
    assert [EIGHT, EIGHT][1..] == [EIGHT];
    assert Forget(s, EIGHT).states == map[SEVEN := WAIT_ANY];
    assert Put(Forget(s, EIGHT), 2, s.procs[2].(status := Exited(FATE))) == s1;
    AfterExitShape(s1, 2, NO_WALK);
    assert Drain(s1, 1) == s1;
    assert Disown(s1, 2, NO_WALK) == s1;
  }

  lemma StaleStep()
    ensures Leads(GONE, LOST_WAITER_RUN[7], LOST)
  {}

  lemma LostAt1(ins: seq<Input>)
    requires ins == LOST_WAITER_RUN
    ensures At(ins, 1, FORKED)
  {
    assert At(ins, 0, Claimed(10));
    ForkStep();
    Then(ins, 0, Claimed(10), FORKED);
  }

  lemma LostAt2(ins: seq<Input>)
    requires ins == LOST_WAITER_RUN
    ensures At(ins, 2, MAPPED)
  {
    LostAt1(ins);
    MapStep();
    Then(ins, 1, FORKED, MAPPED);
  }

  lemma LostAt3(ins: seq<Input>)
    requires ins == LOST_WAITER_RUN
    ensures At(ins, 3, STOPPED)
  {
    LostAt2(ins);
    StopStep();
    Then(ins, 2, MAPPED, STOPPED);
  }

  lemma LostAt4(ins: seq<Input>)
    requires ins == LOST_WAITER_RUN
    ensures At(ins, 4, WAITING)
  {
    LostAt3(ins);
    WaitStep();
    Then(ins, 3, STOPPED, WAITING);
  }

  lemma LostAt5(ins: seq<Input>)
    requires ins == LOST_WAITER_RUN
    ensures At(ins, 5, LEAVING)
  {
    LostAt4(ins);
    ExitStep();
    Then(ins, 4, WAITING, LEAVING);
  }

  lemma LostAt6(ins: seq<Input>)
    requires ins == LOST_WAITER_RUN
    ensures At(ins, 6, ALONE)
  {
    LostAt5(ins);
    DeathStep();
    Then(ins, 5, LEAVING, ALONE);
  }

  lemma LostAt7(ins: seq<Input>)
    requires ins == LOST_WAITER_RUN
    ensures At(ins, 7, GONE)
  {
    LostAt6(ins);
    CompleteStep();
    Then(ins, 6, ALONE, GONE);
  }

  lemma LostAt8(ins: seq<Input>)
    requires ins == LOST_WAITER_RUN
    ensures At(ins, 8, LOST)
  {
    LostAt7(ins);
    StaleStep();
    Then(ins, 7, GONE, LOST);
  }

  lemma LostRun(ins: seq<Input>)
    requires ins == LOST_WAITER_RUN
    ensures Run(Claimed(10), ins) == LOST
  {
    LostAt8(ins);
    assert ins[..8] == ins;
  }

  /**
   The queues are empty, init's call is still suspended and listed nowhere, and the termination
   it waits for is on record.
   */
  lemma WaiterIsLost()
    ensures
      var s := Run(Claimed(10), LOST_WAITER_RUN);
      && s.awoken == [] && SEVEN in s.states && s.states[SEVEN] == WAIT_ANY
      && 1 in s.procs && s.procs[1].waitpidWaiting == []
      && 2 in s.procs[1].waitpid && s.procs[1].waitpid[2].status == Terminated(FATE)
  {
    LostRun(LOST_WAITER_RUN);
  }

  // ---------------------------------------------------------------- an overwritten termination

  /** Init with a child, a grandchild and a great-grandchild. */
  function Line(records: map<Pid, Record>, two: Process, three: Process, four: Process, internal: nat): State {
    State(
      map[1 := Kin({10}, 1, PossiblyRunnable, records, false), 2 := two, 3 := three, 4 := four],
      map[1 := [1, 2, 3, 4]], 5, internal, map[], [])
  }

  const CALM := Fate(None, 0)
  const STOP_OF_FOUR: map<Pid, Record> := map[4 := Record(1, StoppedBy(SIGSTOP))]
  const END_OF_THREE: map<Pid, Record> := map[3 := Record(1, Terminated(CALM))]
  const END_OF_FOUR: map<Pid, Record> := map[4 := Record(1, Terminated(FATE))]

  function Runs(tid: Tid, ppid: Pid, records: map<Pid, Record>): Process { Kin({tid}, ppid, PossiblyRunnable, records, false) }

  const BORN := Line(map[], Runs(20, 1, map[]), Runs(30, 2, map[]), Runs(40, 3, map[]), 1)
  const HALTED := Line(map[], Runs(20, 1, map[]), Runs(30, 2, STOP_OF_FOUR), Kin({40}, 3, Stopped(SIGSTOP), map[], true), 1)
  const THREE_OUT :=
    Line(map[], Runs(20, 1, END_OF_THREE), Kin({}, 2, Exited(CALM), STOP_OF_FOUR, false), Kin({40}, 1, Stopped(SIGSTOP), map[], true), 2)
  const FOUR_OUT :=
    Line(END_OF_FOUR, Runs(20, 1, END_OF_THREE), Kin({}, 2, Exited(CALM), STOP_OF_FOUR, false), Kin({}, 1, Exited(FATE), map[], true), 3)

  const LINE_RUN: seq<Input> := [
    Do(ForkEvent(1, 20)),
    Do(ForkEvent(2, 30)),
    Do(ForkEvent(3, 40)),
    Do(Call(5, 4, SyncPctl)),
    Do(Call(6, 4, Kill(4, SIGSTOP, false))),
    Input(Death(3, 30, 0), Order([4], [1]), None),
    Input(Death(4, 40, 3), Order([], [1]), None),
    Input(Death(2, 20, 0), Order([3], [1]), None)
  ]

  const ONE_BORN := State(map[1 := Runs(10, 1, map[]), 2 := Runs(20, 1, map[])], map[1 := [1, 2]], 3, 1, map[], [])
  const TWO_BORN :=
    State(map[1 := Runs(10, 1, map[]), 2 := Runs(20, 1, map[]), 3 := Runs(30, 2, map[])], map[1 := [1, 2, 3]], 4, 1, map[], [])
  const PAGED := Line(map[], Runs(20, 1, map[]), Runs(30, 2, map[]), Runs(40, 3, map[]).(sigPctl := true), 1)

  lemma FirstBirthStep()
    ensures Leads(Claimed(10), Do(ForkEvent(1, 20)), ONE_BORN)
  {
    assert [1] + [2] == [1, 2];
  }

  lemma SecondBirthStep()
    ensures Leads(ONE_BORN, Do(ForkEvent(2, 30)), TWO_BORN)
  {
    assert [1, 2] + [3] == [1, 2, 3];
  }

  /** Runs that begin with the birth of a child and a grandchild. */
  lemma Births(ins: seq<Input>)
    requires |ins| >= 2 && ins[0] == Do(ForkEvent(1, 20)) && ins[1] == Do(ForkEvent(2, 30))
    ensures At(ins, 2, TWO_BORN)
  {
    FirstBirth(ins);
    SecondBirthStep();
    Then(ins, 1, ONE_BORN, TWO_BORN);
  }

  lemma FirstBirth(ins: seq<Input>)
    requires |ins| >= 1 && ins[0] == Do(ForkEvent(1, 20))
    ensures At(ins, 1, ONE_BORN)
  {
    assert At(ins, 0, Claimed(10));
    FirstBirthStep();
    Then(ins, 0, Claimed(10), ONE_BORN);
  }

  lemma LastBirthStep()
    ensures Leads(TWO_BORN, LINE_RUN[2], BORN)
  {
    assert [1, 2, 3] + [4] == [1, 2, 3, 4];
  }

  lemma PageStep()
    ensures Leads(BORN, LINE_RUN[3], PAGED)
  {}

  lemma HaltStep()
    ensures Leads(PAGED, LINE_RUN[4], HALTED)
  {
    assert Forget(PAGED, KernelId(6)) == PAGED;
    SendSigShape(PAGED, 4, 4, SIGSTOP, false);
    assert Signalled(PAGED, 4, SIGSTOP) == HALTED;
  }

  lemma CompleteArmed(s: State, id: VirtualId, pid: Pid, fate: Fate, order: Order)
    requires pid in s.procs && s.procs[pid].threads == {} && id !in s.states
    ensures Complete(Armed(s, id, pid, fate, false), id, pid, order) ==
            AfterExit(Put(s, pid, s.procs[pid].(status := Exited(fate))), pid, order)
  {
    var s2 := Armed(s, id, pid, fate, false);
    assert s2.states - {id} == s.states;
    assert Put(Forget(s2, id), pid, s2.procs[pid].(status := Exited(fate))) == Put(s, pid, s.procs[pid].(status := Exited(fate)));
  }

  lemma ExitAtOnce(s: State, id: VirtualId, pid: Pid, raw: nat, order: Order)
    requires pid in s.procs && s.procs[pid].threads == {} && !s.procs[pid].status.Ending() && raw < 256
    ensures ExitStart(s, id, pid, raw, false, order).0 ==
            Complete(Armed(s, id, pid, Fate(None, raw), false), id, pid, order)
  {
    var s2 := Armed(s, id, pid, Fate(None, raw), false);
    assert WorkOn(s2, id, order, None).0 == Complete(s2, id, pid, order);
  }

  /** `pid` has lost its only thread and has exited. */
  function Dead(s: State, pid: Pid, raw: nat): State
    requires pid in s.procs
  {
    Put(Bumped(s), pid, s.procs[pid].(threads := {}, status := Exited(Fate(None, raw))))
  }

  /** The state in which the exit of a process that lost its only thread is started. */
  function Bereft(s: State, pid: Pid, tid: Tid): State
    requires pid in s.procs
  {
    Bumped(DropThread(s, pid, tid))
  }

  lemma LastDeathIs(s: State, pid: Pid, tid: Tid, raw: nat, order: Order)
    requires pid in s.procs && s.procs[pid].threads == {tid} && !s.procs[pid].status.Ending()
    requires InternalId(s.nextInternal) !in s.states
    ensures ThreadDeath(s, pid, tid, raw, order) == ExitStart(Bereft(s, pid, tid), InternalId(s.nextInternal), pid, raw, false, order).0
    ensures Bereft(s, pid, tid).procs[pid].threads == {}
  {
    assert {tid} - {tid} == {} && tid in s.procs[pid].threads;
  }

  lemma BereftDies(s: State, pid: Pid, tid: Tid, raw: nat)
    requires pid in s.procs && s.procs[pid].threads == {tid}
    ensures var s1 := Bereft(s, pid, tid); Put(s1, pid, s1.procs[pid].(status := Exited(Fate(None, raw)))) == Dead(s, pid, raw)
  {
    assert {tid} - {tid} == {};
  }

  /** The process whose only thread dies exits at once. */
  lemma LoneDeath(s: State, pid: Pid, tid: Tid, raw: nat, order: Order)
    requires pid in s.procs && s.procs[pid].threads == {tid} && !s.procs[pid].status.Ending() && raw < 256
    requires InternalId(s.nextInternal) !in s.states
    ensures ThreadDeath(s, pid, tid, raw, order) == AfterExit(Dead(s, pid, raw), pid, order)
  {
    var id, s1 := InternalId(s.nextInternal), Bereft(s, pid, tid);
    LastDeathIs(s, pid, tid, raw, order);
    BereftDies(s, pid, tid, raw);
    ExitAtOnce(s1, id, pid, raw, order);
    CompleteArmed(s1, id, pid, Fate(None, raw), order);
  }

  /** Everybody is in init's group, and nobody waits with init. */
  ghost predicate OneGroup(s: State) {
    && INIT in s.procs && INIT in s.groups && s.procs[INIT].waitpidWaiting == []
    && forall p | p in s.procs :: s.procs[p].pgid == INIT
  }

  lemma DisownInOneGroup(s: State, cur: Pid, kids: seq<Pid>)
    requires OneGroup(s)
    ensures Disown(s, cur, Order(kids, [INIT])) == Reparent(s, cur, kids)
  {
    assert Drain(s, INIT) == s;
    assert IsOrphaned(s, INIT);
    var moved := Reparent(s, cur, kids);
    assert RouseOrphans(moved, s, cur, [INIT]) == RouseOrphans(moved, s, cur, [INIT][1..]);
  }

  /** There, an exit only hands over the children and files the record. */
  lemma ExitInOneGroup(s: State, cur: Pid, kids: seq<Pid>)
    requires OneGroup(s) && cur in s.procs && s.procs[cur].status.Exited? && s.procs[cur].ppid in s.procs
    ensures
      var q := s.procs[cur];
      AfterExit(s, cur, Order(kids, [INIT])) == Report(Reparent(s, cur, kids), q.ppid, cur, q.pgid, Terminated(q.status.fate))
  {
    SigchldIsQuiet(s, cur, s.procs[cur].ppid, false);
    DisownInOneGroup(s, cur, kids);
  }

  /** `pid` is in a one-group world and about to lose its only thread. */
  ghost predicate Lone(s: State, pid: Pid, tid: Tid) {
    && OneGroup(s) && pid in s.procs && pid != INIT && s.procs[pid].threads == {tid} && !s.procs[pid].status.Ending()
    && s.procs[pid].ppid in s.procs && InternalId(s.nextInternal) !in s.states
  }

  /** That process exits, its children go to init, and its parent gets the record. */
  lemma DeathInOneGroup(s: State, pid: Pid, tid: Tid, raw: nat, kids: seq<Pid>)
    requires Lone(s, pid, tid) && raw < 256
    ensures ThreadDeath(s, pid, tid, raw, Order(kids, [INIT])) ==
            Report(Reparent(Dead(s, pid, raw), pid, kids), s.procs[pid].ppid, pid, INIT, Terminated(Fate(None, raw)))
  {
    LoneDeath(s, pid, tid, raw, Order(kids, [INIT]));
    assert OneGroup(Dead(s, pid, raw));
    ExitInOneGroup(Dead(s, pid, raw), pid, kids);
  }

  lemma DeathStepIs(s: State, i: Input)
    requires i.event.Death?
    ensures Next(s, i) == ThreadDeath(s, i.event.pid, i.event.tid, i.event.raw, i.order)
  {}

  lemma ReparentSingle(s: State, cur: Pid, c: Pid)
    requires INIT in s.procs && IsChild(s, c, cur)
    ensures Reparent(s, cur, [c]) == ReparentOne(s, c)
  {
    assert Reparent(s, cur, [c]) == Reparent(ReparentOne(s, c), cur, [c][1..]);
  }

  lemma ThreeDies()
    ensures Lone(HALTED, 3, 30)
    ensures Report(Reparent(Dead(HALTED, 3, 0), 3, [4]), 2, 3, INIT, Terminated(CALM)) == THREE_OUT
  {
    var s1 := Dead(HALTED, 3, 0);
    ReparentSingle(s1, 3, 4);
    assert ReparentOne(s1, 4).procs[1].waitpid == map[];
  }

  lemma FourDies()
    ensures Lone(THREE_OUT, 4, 40)
    ensures Report(Reparent(Dead(THREE_OUT, 4, 3), 4, []), 1, 4, INIT, Terminated(FATE)) == FOUR_OUT
  {}

  lemma ThreeStep()
    ensures Leads(HALTED, LINE_RUN[5], THREE_OUT)
  {
    ThreeDies();
    DeathInOneGroup(HALTED, 3, 30, 0, [4]);
    DeathStepIs(HALTED, LINE_RUN[5]);
  }

  lemma FourStep()
    ensures Leads(THREE_OUT, LINE_RUN[6], FOUR_OUT)
  {
    FourDies();
    DeathInOneGroup(THREE_OUT, 4, 40, 3, []);
    DeathStepIs(THREE_OUT, LINE_RUN[6]);
  }

  lemma TwoDies()
    ensures Lone(FOUR_OUT, 2, 20)
    ensures
      var m := Report(Reparent(Dead(FOUR_OUT, 2, 0), 2, [3]), 1, 2, INIT, Terminated(CALM)).procs[1].waitpid;
      4 in m && m[4].status == StoppedBy(SIGSTOP)
  {
    var s1 := Dead(FOUR_OUT, 2, 0);
    ReparentSingle(s1, 2, 3);
    assert ReparentOne(s1, 3).procs[1].waitpid == END_OF_FOUR + STOP_OF_FOUR;
  }

  lemma TwoStep()
    ensures
      var s := Next(FOUR_OUT, LINE_RUN[7]);
      1 in s.procs && 4 in s.procs[1].waitpid && s.procs[1].waitpid[4].status == StoppedBy(SIGSTOP)
  {
    TwoDies();
    DeathInOneGroup(FOUR_OUT, 2, 20, 0, [3]);
    DeathStepIs(FOUR_OUT, LINE_RUN[7]);
  }

  lemma LineAt3(ins: seq<Input>)
    requires ins == LINE_RUN
    ensures At(ins, 3, BORN)
  {
    Births(ins);
    LastBirthStep();
    Then(ins, 2, TWO_BORN, BORN);
  }

  lemma LineAt4(ins: seq<Input>)
    requires ins == LINE_RUN
    ensures At(ins, 4, PAGED)
  {
    LineAt3(ins);
    PageStep();
    Then(ins, 3, BORN, PAGED);
  }

  lemma LineAt5(ins: seq<Input>)
    requires ins == LINE_RUN
    ensures At(ins, 5, HALTED)
  {
    LineAt4(ins);
    HaltStep();
    Then(ins, 4, PAGED, HALTED);
  }

  lemma LineAt6(ins: seq<Input>)
    requires ins == LINE_RUN
    ensures At(ins, 6, THREE_OUT)
  {
    LineAt5(ins);
    ThreeStep();
    Then(ins, 5, HALTED, THREE_OUT);
  }

  lemma LineAt7(ins: seq<Input>)
    requires ins == LINE_RUN
    ensures At(ins, 7, FOUR_OUT)
  {
    LineAt6(ins);
    FourStep();
    Then(ins, 6, THREE_OUT, FOUR_OUT);
  }

  /**
   A zombie child brings an old stop record along when it is handed to init, and that record
   replaces the termination init already knew of.
   */
  lemma TerminationIsOverwritten()
    ensures
      var s := Run(Claimed(10), LINE_RUN[..7]);
      && 1 in s.procs && 4 in s.procs[1].waitpid && s.procs[1].waitpid[4].status == Terminated(FATE)
      && var t := Next(s, LINE_RUN[7]);
         1 in t.procs && 4 in t.procs[1].waitpid && t.procs[1].waitpid[4].status == StoppedBy(SIGSTOP)
  {
    LineAt7(LINE_RUN);
    TwoStep();
  }

  // ---------------------------------------------------------------- a forgotten zombie

  /** A grandchild of init exits, then the child; init waits for any child twice. */
  const ZOMBIE_RUN: seq<Input> := [
    Do(ForkEvent(1, 20)),
    Do(ForkEvent(2, 30)),
    Input(Death(3, 30, 0), Order([], [1]), None),
    Input(Death(2, 20, 0), Order([3], [1]), None),
    Do(Call(7, 1, Waitpid(AnyChild, NO_FLAGS))),
    Do(Call(8, 1, Waitpid(AnyChild, NO_FLAGS)))
  ]

  const GRANDCHILD_OUT := State(
    map[1 := Runs(10, 1, map[]), 2 := Runs(20, 1, END_OF_THREE), 3 := Kin({}, 2, Exited(CALM), map[], false)],
    map[1 := [1, 2, 3]], 4, 2, map[], [])
  const END_OF_TWO: map<Pid, Record> := map[2 := Record(1, Terminated(CALM))]
  const CHILD_OUT := State(
    map[1 := Runs(10, 1, END_OF_TWO), 2 := Kin({}, 1, Exited(CALM), END_OF_THREE, false), 3 := Kin({}, 1, Exited(CALM), map[], false)],
    map[1 := [1, 2, 3]], 4, 3, map[], [])
  lemma GrandchildDies()
    ensures Lone(TWO_BORN, 3, 30)
    ensures Report(Reparent(Dead(TWO_BORN, 3, 0), 3, []), 2, 3, INIT, Terminated(CALM)) == GRANDCHILD_OUT
  {}

  lemma GrandchildStep()
    ensures Leads(TWO_BORN, ZOMBIE_RUN[2], GRANDCHILD_OUT)
  {
    GrandchildDies();
    DeathInOneGroup(TWO_BORN, 3, 30, 0, []);
    DeathStepIs(TWO_BORN, ZOMBIE_RUN[2]);
  }

  lemma ChildDies()
    ensures Lone(GRANDCHILD_OUT, 2, 20)
    ensures Report(Reparent(Dead(GRANDCHILD_OUT, 2, 0), 2, [3]), 1, 2, INIT, Terminated(CALM)) == CHILD_OUT
  {
    var s1 := Dead(GRANDCHILD_OUT, 2, 0);
    ReparentSingle(s1, 2, 3);
    assert ReparentOne(s1, 3).procs[1].waitpid == map[];
  }

  lemma ChildStep()
    ensures Leads(GRANDCHILD_OUT, ZOMBIE_RUN[3], CHILD_OUT)
  {
    ChildDies();
    DeathInOneGroup(GRANDCHILD_OUT, 2, 20, 0, [3]);
    DeathStepIs(GRANDCHILD_OUT, ZOMBIE_RUN[3]);
  }

  /** Init's wait for any child reports the only termination on record and takes the process away. */
  lemma ReapStep(s: State, c: Pid, g: Pid, f: Fate, i: Input)
    requires s.states == map[] && INIT in s.procs && c in s.procs && c != INIT && s.procs[c].ppid == INIT && s.procs[c].threads == {}
    requires s.procs[INIT].waitpid == map[c := Record(g, Terminated(f))] && i == Do(Call(7, 1, Waitpid(AnyChild, NO_FLAGS)))
    ensures
      var t := Next(s, i);
      && t.awoken == s.awoken && t.states == map[SEVEN := Placeholder]
      && t.procs == (s.procs - {c})[INIT := s.procs[INIT].(waitpid := map[])]
  {
    var m, s1 := s.procs[INIT].waitpid, s.(states := map[SEVEN := WAIT_ANY]);
    assert Forget(s, SEVEN) == s && c in m && First(m) == c && m - {c} == map[];
    assert Pick(s1, INIT, AnyChild, None) == Some((c, Terminated(f)));
    assert WorkOn(s1, SEVEN, NO_WALK, None).0 == Spend(Reap(TakeRecord(s1, INIT, c), c), SEVEN);
  }

  /** Init waits for any child in vain, although its child `k` has exited. */
  ghost predicate Sleepless(s: State, k: Pid) {
    && s.awoken == [] && EIGHT in s.states && s.states[EIGHT] == WAIT_ANY
    && INIT in s.procs && s.procs[INIT].waitpid == map[] && EIGHT in s.procs[INIT].waitpidWaiting
    && k in s.procs && s.procs[k].status.Exited? && s.procs[k].ppid == INIT
  }

  lemma SleepStep(s: State, k: Pid, i: Input)
    requires s.awoken == [] && INIT in s.procs && s.procs[INIT].waitpid == map[]
    requires k in s.procs && k != INIT && s.procs[k].status.Exited? && s.procs[k].ppid == INIT
    requires i == Do(Call(8, 1, Waitpid(AnyChild, NO_FLAGS)))
    ensures Sleepless(Next(s, i), k)
  {
    var s0 := Forget(s, EIGHT);
    var s1 := s0.(states := s0.states[EIGHT := WAIT_ANY]);
    assert WaitpidRefusal(s1, INIT, AnyChild).None?;
    assert Next(s, i) == Register(s1, INIT, EIGHT);
  }

  lemma ZombieAt3(ins: seq<Input>)
    requires ins == ZOMBIE_RUN
    ensures At(ins, 3, GRANDCHILD_OUT)
  {
    Births(ins);
    GrandchildStep();
    Then(ins, 2, TWO_BORN, GRANDCHILD_OUT);
  }

  lemma ZombieAt4(ins: seq<Input>)
    requires ins == ZOMBIE_RUN
    ensures At(ins, 4, CHILD_OUT)
  {
    ZombieAt3(ins);
    ChildStep();
    Then(ins, 3, GRANDCHILD_OUT, CHILD_OUT);
  }

  /** Init waits twice: the only record on file is reported, then nothing is. */
  lemma WaitsTwice(ins: seq<Input>, s: State, c: Pid, k: Pid)
    requires |ins| == 6 && At(ins, 4, s) && s.states == map[] && s.awoken == [] && INIT in s.procs
    requires ins[4] == Do(Call(7, 1, Waitpid(AnyChild, NO_FLAGS))) && ins[5] == Do(Call(8, 1, Waitpid(AnyChild, NO_FLAGS)))
    requires c in s.procs && c != INIT && s.procs[c].ppid == INIT && s.procs[c].threads == {}
    requires s.procs[INIT].waitpid == map[c := Record(1, Terminated(CALM))]
    requires k in s.procs && k != INIT && k != c && s.procs[k].status.Exited? && s.procs[k].ppid == INIT
    ensures Sleepless(Run(Claimed(10), ins), k)
  {
    var t := Next(s, ins[4]);
    ReapStep(s, c, 1, CALM, ins[4]);
    Then(ins, 4, s, t);
    SleepStep(t, k, ins[5]);
    Then(ins, 5, t, Next(t, ins[5]));
    assert ins[..6] == ins;
  }

  /**
   Init's first call reports the child.  The second is suspended with nothing queued and no record
   filed, although the grandchild has exited and is now a child of init's.
   */
  lemma ZombieIsForgotten(ins: seq<Input>)
    requires ins == ZOMBIE_RUN
    ensures Sleepless(Run(Claimed(10), ins), 3)
  {
    ZombieAt4(ins);
    WaitsTwice(ins, CHILD_OUT, 2, 3);
  }
}
