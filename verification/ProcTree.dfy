/** The parent relation is a tree rooted at init, as long as init lives and zombies do not fork. */
module ProcTree {
  import opened Prelude
  import opened ProcModel
  import opened ProcFrame
  import opened ProcRuns
  import ProcPids
  import opened ProcFates

  /** The parent is an older process in the table that has not exited. */
  ghost predicate Parented(s: State, p: Pid)
    requires p in s.procs
  {
    var q := s.procs[p].ppid;
    INIT < p && q < p && q in s.procs && !s.procs[q].status.Exited?
  }

  ghost predicate InitSound(s: State) {
    && INIT in s.procs
    && s.procs[INIT].ppid == INIT
    && !s.procs[INIT].status.Ending()
    && s.procs[INIT].euid == 0
  }

  ghost predicate IsTree(s: State) {
    && InitSound(s)
    && forall p {:trigger Parented(s, p)} | p in s.procs && p != INIT :: Parented(s, p)
  }

  /** A tree, except that children of `cur` may still hang on to it after its exit. */
  ghost predicate IsTreeBut(s: State, cur: Pid) {
    && InitSound(s)
    && forall p {:trigger Parented(s, p)} | p in s.procs && p != INIT && s.procs[p].ppid != cur :: Parented(s, p)
  }

  lemma CalmTree(s: State, t: State, cur: Pid)
    requires IsTreeBut(s, cur) && Calm(s, t) && cur != INIT
    requires forall p | p in s.procs :: INIT <= p
    requires forall p | p in t.procs && p != INIT :: t.procs[p].ppid != cur
    ensures IsTree(t)
  {
    assert CalmProc(s, t, INIT);
    forall p | p in t.procs && p != INIT ensures Parented(t, p) {
      assert CalmProc(s, t, p);
      var q := t.procs[p].ppid;
      if q != INIT {
        assert Parented(s, p);
        assert CalmProc(s, t, q);
      }
    }
  }

  lemma CalmKeeps(s: State, t: State)
    requires IsTree(s) && Calm(s, t)
    ensures IsTree(t)
  {
    assert CalmProc(s, t, INIT);
    forall p | p in t.procs && p != INIT ensures Parented(t, p) {
      assert CalmProc(s, t, p) && Parented(s, p);
      assert CalmProc(s, t, s.procs[p].ppid);
    }
  }

  /** Same parents, same table, nobody newly exited. */
  ghost predicate SameFamily(s: State, t: State) {
    && t.procs.Keys == s.procs.Keys
    && forall p | p in s.procs ::
         && t.procs[p].ppid == s.procs[p].ppid
         && (t.procs[p].status.Exited? ==> s.procs[p].status.Exited?)
  }

  lemma FamilyKeeps(s: State, t: State)
    requires IsTree(s) && SameFamily(s, t) && InitSound(t)
    ensures IsTree(t)
  {
    forall p | p in t.procs && p != INIT ensures Parented(t, p) { assert Parented(s, p); }
  }

  // ---------------------------------------------------------------- exit

  /** Everybody in the walk that was a child of `cur` is a child of init afterwards. */
  lemma {:induction false} ReparentMoves(s: State, cur: Pid, order: seq<Pid>, p: Pid)
    requires INIT in s.procs && p in s.procs && p != INIT && cur != INIT
    ensures Reparent(s, cur, order).procs[p].ppid ==
            if s.procs[p].ppid == cur && p in order then INIT else s.procs[p].ppid
    decreases order
  {
    if order != [] {
      var s1 := if IsChild(s, order[0], cur) then ReparentOne(s, order[0]) else s;
      ReparentMoves(s1, cur, order[1..], p);
      assert p in order <==> p == order[0] || p in order[1..];
    }
  }

  /** Rousing keeps every parent. */
  ghost predicate SameParents(s: State, t: State) {
    t.procs.Keys == s.procs.Keys && forall p | p in s.procs :: t.procs[p].ppid == s.procs[p].ppid
  }

  lemma SendSigParents(s: State, caller: Pid, target: Pid, sig: nat, willStop: bool)
    ensures SameParents(s, SendSig(s, caller, target, sig, willStop).0)
  {
    SendSigShape(s, caller, target, sig, willStop);
  }

  lemma RouseParents(s: State, m: Pid)
    ensures SameParents(s, Rouse(s, m))
  {
    if m in s.procs && s.procs[m].status.Stopped? {
      SendSigParents(s, INIT, m, SIGCONT, false);
      SendSigParents(SendSig(s, INIT, m, SIGCONT, false).0, INIT, m, SIGHUP, false);
    }
  }

  lemma {:induction false} RouseAllParents(s: State, members: seq<Pid>)
    ensures SameParents(s, RouseAll(s, members))
    decreases members
  {
    if members != [] {
      RouseParents(s, members[0]);
      RouseAllParents(Rouse(s, members[0]), members[1..]);
    }
  }

  lemma {:induction false} RouseOrphansParents(s: State, was: State, cur: Pid, order: seq<Pid>)
    ensures SameParents(s, RouseOrphans(s, was, cur, order))
    decreases order
  {
    if order != [] {
      var s1 := RouseStep(s, was, cur, order[0]);
      if s1 != s { RouseAllParents(s, s.groups[order[0]]); }
      RouseOrphansParents(s1, was, cur, order[1..]);
    }
  }

  /** An exiting process has no children left when its record is filed. */
  lemma DisownMovesAll(s: State, cur: Pid, order: Order, p: Pid)
    requires INIT in s.procs && cur != INIT && p in s.procs && p != INIT
    requires IsChild(s, p, cur) ==> p in order.kids
    ensures Disown(s, cur, order).procs[p].ppid == if s.procs[p].ppid == cur then INIT else s.procs[p].ppid
  {
    var was := Drain(s, INIT);
    ReparentMoves(was, cur, order.kids, p);
    RouseOrphansParents(Reparent(was, cur, order.kids), was, cur, order.pgrps);
  }

  lemma ChildlessAfterExit(s: State, cur: Pid, order: Order, p: Pid)
    requires cur in s.procs && s.procs[cur].status.Exited? && cur != INIT
    requires INIT in s.procs && s.procs[cur].ppid in s.procs && p in s.procs && p != INIT
    requires IsChild(s, p, cur) ==> p in order.kids
    ensures AfterExit(s, cur, order).procs[p].ppid != cur
  {
    AfterExitShape(s, cur, order);
    DisownMovesAll(s, cur, order, p);
  }

  lemma AfterExitKeeps(s: State, cur: Pid, order: Order)
    requires IsTreeBut(s, cur) && cur in s.procs && s.procs[cur].status.Exited? && s.procs[cur].ppid in s.procs
    requires forall p | p in s.procs :: INIT <= p
    requires forall p | IsChild(s, p, cur) :: p in order.kids
    ensures IsTree(AfterExit(s, cur, order))
  {
    var t := AfterExit(s, cur, order);
    AfterExitCalm(s, cur, order);
    forall p | p in t.procs && p != INIT ensures t.procs[p].ppid != cur {
      ChildlessAfterExit(s, cur, order, p);
    }
    CalmTree(s, t, cur);
  }

  lemma CompleteKeeps(s: State, id: VirtualId, pid: Pid, order: Order)
    requires IsTree(s) && pid in s.procs && s.procs[pid].status.Exiting?
    requires forall p | IsChild(s, p, pid) :: p in order.kids
    ensures IsTree(Complete(s, id, pid, order))
  {
    var s1 := Put(Forget(s, id), pid, s.procs[pid].(status := Exited(s.procs[pid].status.fate)));
    assert Parented(s, pid);
    forall p | p in s1.procs && p != INIT && s1.procs[p].ppid != pid ensures Parented(s1, p) { assert Parented(s, p); }
    forall p | p in s1.procs ensures INIT <= p { assert p != INIT ==> Parented(s, p); }
    forall p | IsChild(s1, p, pid) ensures p in order.kids { assert IsChild(s, p, pid); }
    AfterExitKeeps(s1, pid, order);
    assert Complete(s, id, pid, order) == AfterExit(s1, pid, order);
  }

  // ---------------------------------------------------------------- waitpid

  /** Only an exited process leaves the table, so no child loses its parent. */
  lemma WaitedKeeps(s: State, t: State, id: VirtualId)
    requires IsTree(s) && Waited(s, t, id) && Moved(s, t)
    ensures IsTree(t)
  {
    assert MovedProc(s, t, INIT);
    assert WaitedProc(s, t, INIT, id);
    forall p | p in t.procs && p != INIT ensures Parented(t, p) {
      assert WaitedProc(s, t, p, id) && Parented(s, p);
      var q := s.procs[p].ppid;
      assert MovedProc(s, t, q);
      assert WaitedProc(s, t, q, id);
    }
  }

  lemma StatusChangeKeeps(s: State, id: VirtualId, order: Order, hit: Option<Pid>, log: map<Pid, Fate>)
    requires IsTree(s) && FatesFrozen(s, log) && id in s.states && s.states[id].AwaitingStatusChange?
    ensures IsTree(WorkOn(s, id, order, hit).0)
  {
    var AwaitingStatusChange(w, target, flags) := s.states[id];
    var s1 := OnWaitpid(s, w, target, flags, id, hit).0;
    OnWaitpidFrame(s, w, target, flags, id, hit);
    OnWaitpidMoved(s, w, target, flags, id, hit, log);
    WaitedKeeps(s, s1, id);
    FamilyKeeps(s1, Spend(s1, id));
  }

  // ---------------------------------------------------------------- steps

  lemma WorkOnKeeps(s: State, id: VirtualId, order: Order, hit: Option<Pid>, log: map<Pid, Fate>)
    requires IsTree(s) && FatesFrozen(s, log) && id in s.states
    requires s.states[id].AwaitingThreadsTermination? ==> forall p | IsChild(s, p, s.states[id].pid) :: p in order.kids
    ensures IsTree(WorkOn(s, id, order, hit).0)
  {
    var t := WorkOn(s, id, order, hit).0;
    match s.states[id]
    case AwaitingStatusChange(_, _, _) => StatusChangeKeeps(s, id, order, hit, log);
    case AwaitingThreadsTermination(pid, _) =>
      if pid in s.procs && s.procs[pid].threads == {} && s.procs[pid].status.Exiting? {
        CompleteKeeps(s, id, pid, order);
        assert t == Complete(s, id, pid, order);
      } else {
        FamilyKeeps(s, t);
      }
    case Placeholder =>
  }

  lemma ExitStartKeeps(s: State, id: VirtualId, pid: Pid, raw: nat, tag: bool, order: Order, log: map<Pid, Fate>)
    requires IsTree(s) && FatesFrozen(s, log) && ProcPids.PidsKnown(s) && pid != INIT
    requires forall p | IsChild(s, p, pid) :: p in order.kids
    ensures IsTree(ExitStart(s, id, pid, raw, tag, order).0)
  {
    if pid in s.procs && !s.procs[pid].status.Ending() && DecodeExit(raw).Some? {
      var s1 := Armed(s, id, pid, DecodeExit(raw).value, tag);
      FamilyKeeps(s, s1);
      ArmedKeeps(s, id, pid, DecodeExit(raw).value, tag, log);
      assert forall p | IsChild(s1, p, pid) :: IsChild(s, p, pid);
      WorkOnKeeps(s1, id, order, None, log[pid := DecodeExit(raw).value]);
      assert ExitStart(s, id, pid, raw, tag, order).0 == WorkOn(s1, id, order, None).0;
    }
  }

  lemma LastThreadKeeps(s: State, id: VirtualId, pid: Pid, raw: nat, order: Order, log: map<Pid, Fate>)
    requires IsTree(s) && FatesFrozen(s, log) && ProcPids.PidsKnown(s) && pid != INIT
    requires forall p | IsChild(s, p, pid) :: p in order.kids
    ensures IsTree(LastThread(s, id, pid, raw, order))
  {
    if id !in s.states {
      ExitStartKeeps(s, id, pid, raw, false, order, log);
      assert LastThread(s, id, pid, raw, order) == ExitStart(s, id, pid, raw, false, order).0;
    }
  }

  lemma DropThreadKeeps(s: State, pid: Pid, tid: Tid, log: map<Pid, Fate>)
    requires IsTree(s) && FatesFrozen(s, log) && pid in s.procs
    ensures IsTree(Bumped(DropThread(s, pid, tid))) && FatesFrozen(Bumped(DropThread(s, pid, tid)), log)
  {
    var t := Bumped(DropThread(s, pid, tid));
    FamilyKeeps(s, t);
    SameKeeps(s, t, log);
  }

  lemma ThreadDeathKeeps(s: State, pid: Pid, tid: Tid, raw: nat, order: Order, log: map<Pid, Fate>)
    requires IsTree(s) && FatesFrozen(s, log) && ProcPids.PidsKnown(s)
    requires pid == INIT ==> !(s.procs[INIT].threads <= {tid})
    requires forall p | IsChild(s, p, pid) :: p in order.kids
    ensures IsTree(ThreadDeath(s, pid, tid, raw, order))
  {
    var t := ThreadDeath(s, pid, tid, raw, order);
    if pid in s.procs && tid in s.procs[pid].threads {
      var s1 := DropThread(s, pid, tid);
      if s1.procs[pid].status.Exiting? {
        assert t == WakeAwaiting(s1, pid);
        FamilyKeeps(s, WakeAwaiting(s1, pid));
      } else if s1.procs[pid].threads != {} {
        assert t == s1;
        FamilyKeeps(s, s1);
      } else {
        var s2, id := Bumped(s1), InternalId(s.nextInternal);
        DropThreadKeeps(s, pid, tid, log);
        forall p | IsChild(s2, p, pid) ensures p in order.kids { assert IsChild(s, p, pid); }
        LastThreadKeeps(s2, id, pid, raw, order, log);
        assert t == LastThread(s2, id, pid, raw, order);
      }
    }
  }

  lemma PlainKeeps(s: State, t: State)
    requires IsTree(s) && Plain(s, t) && t.procs[INIT].euid == 0
    ensures IsTree(t)
  {
    forall p | p in s.procs ensures t.procs[p].ppid == s.procs[p].ppid && t.procs[p].status == s.procs[p].status {
      assert PlainProc(s, t, p);
    }
    FamilyKeeps(s, t);
  }

  lemma OnCallKeeps(s: State, n: nat, caller: Pid, verb: Verb, order: Order, hit: Option<Pid>, log: map<Pid, Fate>)
    requires IsTree(s) && FatesFrozen(s, log) && ProcPids.PidsKnown(s)
    requires caller == INIT ==> !verb.Exit? && (verb.SetResugid? ==> verb.euid == 0)
    requires verb.Exit? ==> forall p | IsChild(s, p, caller) :: p in order.kids
    ensures IsTree(OnCall(s, n, caller, verb, order, hit).0)
  {
    var id, s0, t := KernelId(n), Forget(s, KernelId(n)), OnCall(s, n, caller, verb, order, hit).0;
    match verb
    case Exit(raw) =>
      FamilyKeeps(s, s0);
      SameKeeps(s, s0, log);
      assert forall p | IsChild(s0, p, caller) :: IsChild(s, p, caller);
      assert t == ExitStart(s0, id, caller, raw, true, order).0;
      ExitStartKeeps(s0, id, caller, raw, true, order, log);
    case Waitpid(target, flags) =>
      var s1 := s0.(states := s0.states[id := AwaitingStatusChange(caller, target, flags)]);
      FamilyKeeps(s, s1);
      SameKeeps(s, s1, log);
      assert t == WorkOn(s1, id, order, hit).0;
      WorkOnKeeps(s1, id, order, hit, log);
    case Kill(victim, sig, willStop) =>
      FamilyKeeps(s, s0);
      SendSigCalm(s0, caller, victim, sig, willStop);
      assert t == SendSig(s0, caller, victim, sig, willStop).0;
      CalmKeeps(s0, t);
    case _ =>
      FamilyKeeps(s, s0);
      PlainCall(s, n, caller, verb, order, hit);
      PlainKeeps(s0, t);
  }

  lemma ForkKeeps(s: State, parent: Pid, tid: Tid)
    requires IsTree(s) && ProcPids.PidsKnown(s) && (parent in s.procs ==> !s.procs[parent].status.Exited?)
    ensures IsTree(Fork(s, parent, tid))
  {
    var t := Fork(s, parent, tid);
    forall p | p in t.procs && p != INIT ensures Parented(t, p) { if p in s.procs { assert Parented(s, p); } }
  }

  lemma NextKeeps(s: State, i: Input, log: map<Pid, Fate>)
    requires IsTree(s) && FatesFrozen(s, log) && ProcPids.PidsKnown(s)
    requires InitLives(s, i) && NoZombieFork(s, i) && WalksAll(s, i)
    ensures IsTree(Next(s, i))
  {
    match i.event
    case ForkEvent(parent, tid) => ForkKeeps(s, parent, tid);
    case ThreadEvent(pid, tid) => FamilyKeeps(s, Next(s, i));
    case Call(n, caller, verb) => OnCallKeeps(s, n, caller, verb, i.order, i.hit, log);
    case CancelEvent(n) => FamilyKeeps(s, Next(s, i));
    case Death(pid, tid, raw) => ThreadDeathKeeps(s, pid, tid, raw, i.order, log);
    case WakeEvent =>
      if s.awoken != [] {
        var s1 := s.(awoken := s.awoken[1..]);
        FamilyKeeps(s, s1);
        SameKeeps(s, s1, log);
        if s.awoken[0] in s1.states {
          assert forall p, cur | IsChild(s1, p, cur) :: IsChild(s, p, cur);
          WorkOnKeeps(s1, s.awoken[0], i.order, i.hit, log);
          assert Next(s, i) == WorkOn(s1, s.awoken[0], i.order, i.hit).0;
        }
      }
  }

  /** What a well-behaved environment does. */
  ghost predicate Orderly(s: State, i: Input) {
    InitLives(s, i) && NoZombieFork(s, i) && WalksAll(s, i)
  }

  lemma {:induction false} RunKeeps(s: State, ins: seq<Input>, log: map<Pid, Fate>)
    requires IsTree(s) && FatesFrozen(s, log) && ProcPids.PidsKnown(s) && Along(s, ins, Orderly)
    ensures IsTree(Run(s, ins))
    decreases ins
  {
    if ins != [] {
      NextKeeps(s, ins[0], log);
      ProcPids.NextKeeps(s, ins[0]);
      var log' := ProcFates.NextKeeps(s, ins[0], log);
      RunKeeps(Next(s, ins[0]), ins[1..], log');
    }
  }

  /** The chain of parents from `p` up to the root (`ProcScheme::ancestors`, cut at init). */
  function Ancestors(s: State, p: Pid): (chain: seq<Pid>)
    requires IsTree(s) && p in s.procs
    ensures forall a | a in chain :: a in s.procs && a < p
    ensures p != INIT ==> chain != [] && chain[|chain| - 1] == INIT
    decreases p
  {
    if p == INIT then []
    else
      assert Parented(s, p);
      [s.procs[p].ppid] + Ancestors(s, s.procs[p].ppid)
  }

  /**
   If init never exits and no exited process is forked, every process other than init has an
   older parent in the table, and following parents reaches init.
   */
  lemma ParentsFormTree(tid: Tid, ins: seq<Input>, p: Pid)
    requires Along(Claimed(tid), ins, Orderly)
    ensures
      var s := Run(Claimed(tid), ins);
      && IsTree(s)
      && (p in s.procs && p != INIT ==> Ancestors(s, p) != [] && INIT in Ancestors(s, p))
  {
    var s0 := Claimed(tid);
    SameKeeps(s0, s0, map[]);
    RunKeeps(s0, ins, map[]);
  }
}
