/** A process group that an exit orphans is left without stopped members. */
module ProcOrphans {
  import opened Prelude
  import opened ProcModel
  import opened ProcFrame
  import opened ProcRuns
  import ProcPids
  import ProcFates
  import opened ProcGroups
  import opened ProcTree

  /**
   The definition in chapter 3 of POSIX XBD: the parent of every member is either itself a member
   of the group or is not a member of the member's session.
   */
  ghost predicate PosixOrphaned(s: State, g: Pid) {
    forall m | m in s.procs && s.procs[m].pgid == g && s.procs[m].ppid in s.procs ::
      var parent := s.procs[m].ppid;
      (g in s.groups && parent in s.groups[g]) || s.procs[parent].sid != s.procs[m].sid
  }

  /** The loop over the group's list decides exactly that. */
  lemma OrphanedIsPosix(s: State, g: Pid)
    requires GroupsAgree(s) && g in s.groups
    ensures PgrpIsOrphaned(s, g) == Some(PosixOrphaned(s, g))
  {
    assert GroupSound(s, g);
    forall m | m in s.procs && s.procs[m].pgid == g ensures m in s.groups[g] {
      assert Indexed(s, m);
      assert m in multiset(s.groups[g]);
    }
    if PosixOrphaned(s, g) {
      forall m | m in s.groups[g] ensures !Anchors(s, m) {}
    } else {
      var m :| m in s.procs && s.procs[m].pgid == g && s.procs[m].ppid in s.procs
        && !(s.procs[m].ppid in s.groups[g] || s.procs[s.procs[m].ppid].sid != s.procs[m].sid);
      assert Indexed(s, s.procs[m].ppid);
      assert Anchors(s, m);
    }
  }

  // ---------------------------------------------------------------- stopped processes have a signal page

  ghost predicate StoppedMapped(s: State) {
    forall p | p in s.procs :: s.procs[p].status.Stopped? ==> s.procs[p].sigPctl
  }

  ghost predicate StopKept(s: State, t: State, p: Pid)
    requires p in t.procs
  {
    t.procs[p].status.Stopped? ==>
      t.procs[p].sigPctl || (p in s.procs && s.procs[p].status.Stopped? && (s.procs[p].sigPctl ==> t.procs[p].sigPctl))
  }

  ghost predicate StopsKept(s: State, t: State) {
    forall p {:trigger StopKept(s, t, p)} | p in t.procs :: StopKept(s, t, p)
  }

  lemma StopsKeptKeeps(s: State, t: State)
    requires StoppedMapped(s) && StopsKept(s, t)
    ensures StoppedMapped(t)
  {
    forall p | p in t.procs && t.procs[p].status.Stopped? ensures t.procs[p].sigPctl { assert StopKept(s, t, p); }
  }

  lemma CalmStops(s: State, t: State)
    requires Calm(s, t)
    ensures StopsKept(s, t)
  {
    forall p | p in t.procs ensures StopKept(s, t, p) { assert CalmProc(s, t, p); }
  }

  lemma WorkOnStops(s: State, id: VirtualId, order: Order, hit: Option<Pid>)
    requires StoppedMapped(s) && id in s.states
    ensures StoppedMapped(WorkOn(s, id, order, hit).0)
  {
    var t := WorkOn(s, id, order, hit).0;
    match s.states[id]
    case AwaitingStatusChange(w, target, flags) =>
      var s1 := OnWaitpid(s, w, target, flags, id, hit).0;
      OnWaitpidFrame(s, w, target, flags, id, hit);
      forall p | p in s1.procs ensures StopKept(s, s1, p) { assert WaitedProc(s, s1, p, id); }
      StopsKeptKeeps(s, s1);
    case AwaitingThreadsTermination(pid, _) =>
      if pid in s.procs && s.procs[pid].threads == {} && s.procs[pid].status.Exiting? {
        var s1 := Put(Forget(s, id), pid, s.procs[pid].(status := Exited(s.procs[pid].status.fate)));
        AfterExitCalm(s1, pid, order);
        CalmStops(s1, t);
        StopsKeptKeeps(s1, t);
      }
    case Placeholder =>
  }

  lemma ExitStartStops(s: State, id: VirtualId, pid: Pid, raw: nat, tag: bool, order: Order)
    requires StoppedMapped(s)
    ensures StoppedMapped(ExitStart(s, id, pid, raw, tag, order).0)
  {
    if pid in s.procs && !s.procs[pid].status.Ending() && DecodeExit(raw).Some? {
      var s1 := Armed(s, id, pid, DecodeExit(raw).value, tag);
      WorkOnStops(s1, id, order, None);
      assert ExitStart(s, id, pid, raw, tag, order).0 == WorkOn(s1, id, order, None).0;
    }
  }

  lemma OnCallStops(s: State, n: nat, caller: Pid, verb: Verb, order: Order, hit: Option<Pid>)
    requires StoppedMapped(s)
    ensures StoppedMapped(OnCall(s, n, caller, verb, order, hit).0)
  {
    var id, s0, t := KernelId(n), Forget(s, KernelId(n)), OnCall(s, n, caller, verb, order, hit).0;
    match verb
    case Exit(raw) =>
      ExitStartStops(s0, id, caller, raw, true, order);
      assert t == ExitStart(s0, id, caller, raw, true, order).0;
    case Waitpid(target, flags) =>
      var s1 := s0.(states := s0.states[id := AwaitingStatusChange(caller, target, flags)]);
      WorkOnStops(s1, id, order, hit);
      assert t == WorkOn(s1, id, order, hit).0;
    case Kill(victim, sig, willStop) =>
      SendSigCalm(s0, caller, victim, sig, willStop);
      assert t == SendSig(s0, caller, victim, sig, willStop).0;
      CalmStops(s0, t);
      StopsKeptKeeps(s0, t);
    case _ =>
      PlainCall(s, n, caller, verb, order, hit);
      forall p | p in t.procs ensures StopKept(s0, t, p) { assert PlainProc(s0, t, p); }
      StopsKeptKeeps(s0, t);
  }

  lemma NextStops(s: State, i: Input)
    requires StoppedMapped(s) && ProcPids.PidsKnown(s)
    ensures StoppedMapped(Next(s, i))
  {
    match i.event
    case Call(n, caller, verb) => OnCallStops(s, n, caller, verb, i.order, i.hit);
    case Death(pid, tid, raw) =>
      if pid in s.procs && tid in s.procs[pid].threads && s.procs[pid].threads - {tid} == {} && !s.procs[pid].status.Exiting? {
        var s1 := Bumped(DropThread(s, pid, tid));
        ExitStartStops(s1, InternalId(s.nextInternal), pid, raw, false, i.order);
        assert Next(s, i) == LastThread(s1, InternalId(s.nextInternal), pid, raw, i.order);
      }
    case WakeEvent =>
      if s.awoken != [] && s.awoken[0] in s.states {
        var s1 := s.(awoken := s.awoken[1..]);
        WorkOnStops(s1, s.awoken[0], i.order, i.hit);
        assert Next(s, i) == WorkOn(s1, s.awoken[0], i.order, i.hit).0;
      }
    case _ =>
  }

  // ---------------------------------------------------------------- rousing

  ghost predicate NoNewStops(s: State, t: State) {
    t.procs.Keys == s.procs.Keys && forall p | p in s.procs :: t.procs[p].status.Stopped? ==> s.procs[p].status.Stopped?
  }

  /** Init may signal anybody, and whoever is stopped has a signal page. */
  ghost predicate CanRouse(s: State) {
    INIT in s.procs && s.procs[INIT].euid == 0 && StoppedMapped(s)
  }

  lemma CanRouseCalm(s: State, t: State)
    requires CanRouse(s) && Calm(s, t)
    ensures CanRouse(t)
  {
    assert CalmProc(s, t, INIT);
    CalmStops(s, t);
    StopsKeptKeeps(s, t);
  }

  lemma RouseWorks(s: State, m: Pid)
    requires CanRouse(s)
    ensures NoNewStops(s, Rouse(s, m))
    ensures m in s.procs ==> !Rouse(s, m).procs[m].status.Stopped?
  {
    if m in s.procs && s.procs[m].status.Stopped? {
      var s1 := SendSig(s, INIT, m, SIGCONT, false).0;
      SendSigShape(s, INIT, m, SIGCONT, false);
      SendSigShape(s1, INIT, m, SIGHUP, false);
      NotifyIsReport(Put(s, m, s.procs[m].(status := PossiblyRunnable)), m, s.procs[m].ppid, s.procs[m].pgid, Continued);
    }
  }

  lemma {:induction false} RouseAllWorks(s: State, members: seq<Pid>)
    requires CanRouse(s)
    ensures NoNewStops(s, RouseAll(s, members))
    ensures forall m | m in members && m in s.procs :: !RouseAll(s, members).procs[m].status.Stopped?
    decreases members
  {
    if members != [] {
      var s1 := Rouse(s, members[0]);
      RouseWorks(s, members[0]);
      RouseCalm(s, members[0]);
      CanRouseCalm(s, s1);
      RouseAllWorks(s1, members[1..]);
      forall m | m in members && m in s.procs ensures !RouseAll(s, members).procs[m].status.Stopped? {
        assert m == members[0] || m in members[1..];
      }
    }
  }

  // ---------------------------------------------------------------- who is orphaned

  /** Nothing that decides about orphaned groups differs. */
  ghost predicate SameRelations(s: State, t: State) {
    && t.procs.Keys == s.procs.Keys
    && t.groups == s.groups
    && forall p | p in s.procs ::
         t.procs[p].ppid == s.procs[p].ppid && t.procs[p].pgid == s.procs[p].pgid && t.procs[p].sid == s.procs[p].sid
  }

  lemma SameOrphans(s: State, t: State, g: Pid)
    requires SameRelations(s, t)
    ensures IsOrphaned(s, g) == IsOrphaned(t, g)
  {
    assert forall m :: Anchors(s, m) == Anchors(t, m);
  }

  lemma CalmRelations(s: State, t: State)
    requires Calm(s, t) && SameParents(s, t)
    ensures SameRelations(s, t)
  {
    forall p | p in s.procs ensures t.procs[p].pgid == s.procs[p].pgid && t.procs[p].sid == s.procs[p].sid {
      assert CalmProc(s, t, p);
    }
  }

  /** A visited group that the reparenting orphaned has no stopped member at the end of the walk. */
  lemma {:induction false} RouseOrphansWorks(s: State, was: State, cur: Pid, order: seq<Pid>, g: Pid)
    requires CanRouse(s)
    ensures NoNewStops(s, RouseOrphans(s, was, cur, order))
    ensures g in order && Affected(was, cur, g) && !IsOrphaned(was, g) && IsOrphaned(s, g) ==>
              forall m | m in s.groups[g] && m in s.procs :: !RouseOrphans(s, was, cur, order).procs[m].status.Stopped?
    decreases order
  {
    if order != [] {
      var s1 := RouseStep(s, was, cur, order[0]);
      if s1 != s {
        RouseAllWorks(s, s.groups[order[0]]);
        RouseAllParents(s, s.groups[order[0]]);
        RouseAllCalm(s, s.groups[order[0]]);
      } else {
        CalmRefl(s);
      }
      CanRouseCalm(s, s1);
      CalmRelations(s, s1);
      SameOrphans(s, s1, g);
      RouseOrphansWorks(s1, was, cur, order[1..], g);
      VisitedGroup(s, s1, was, cur, order, g);
    }
  }

  lemma VisitedGroup(s: State, s1: State, was: State, cur: Pid, order: seq<Pid>, g: Pid)
    requires order != [] && CanRouse(s) && s1 == RouseStep(s, was, cur, order[0]) && SameRelations(s, s1)
    requires NoNewStops(s1, RouseOrphans(s1, was, cur, order[1..]))
    requires g in order[1..] && Affected(was, cur, g) && !IsOrphaned(was, g) && IsOrphaned(s1, g) ==>
               forall m | m in s1.groups[g] && m in s1.procs :: !RouseOrphans(s1, was, cur, order[1..]).procs[m].status.Stopped?
    ensures g in order && Affected(was, cur, g) && !IsOrphaned(was, g) && IsOrphaned(s, g) ==>
              forall m | m in s.groups[g] && m in s.procs :: !RouseOrphans(s, was, cur, order).procs[m].status.Stopped?
  {
    SameOrphans(s, s1, g);
    if g in order && Affected(was, cur, g) && !IsOrphaned(was, g) && IsOrphaned(s, g) {
      if g == order[0] { RouseAllWorks(s, s.groups[g]); }
    }
  }

  /** A group whose members keep their parents keeps its orphan state. */
  lemma OnlyChildrensGroupsChange(was: State, cur: Pid, order: seq<Pid>, g: Pid)
    requires GroupsAgree(was) && INIT in was.procs && was.procs[INIT].waitpidWaiting == [] && cur != INIT
    requires !IsOrphaned(was, g) && IsOrphaned(Reparent(was, cur, order), g)
    ensures g in was.groups && Affected(was, cur, g)
  {
    var moved := Reparent(was, cur, order);
    ReparentCalm(was, cur, order);
    var m :| m in was.groups[g] && Anchors(was, m);
    assert GroupSound(was, g);
    assert CalmProc(was, moved, m);
    assert !Anchors(moved, m);
    var q := was.procs[m].ppid;
    assert CalmProc(was, moved, q);
    if m == INIT {
      ReparentKeepsInit(was, cur, order);
      assert false;
    } else {
      ReparentMoves(was, cur, order, m);
      assert IsChild(was, m, cur);
    }
  }

  lemma {:induction false} ReparentKeepsInit(s: State, cur: Pid, order: seq<Pid>)
    requires INIT in s.procs
    ensures Reparent(s, cur, order).procs[INIT].ppid == s.procs[INIT].ppid
    decreases order
  {
    if order != [] {
      var s1 := if IsChild(s, order[0], cur) then ReparentOne(s, order[0]) else s;
      ReparentKeepsInit(s1, cur, order[1..]);
    }
  }

  // ---------------------------------------------------------------- the theorem

  /** `g` was not orphaned in `s`, is in `t`, and yet somebody in it is stopped in `t`. */
  ghost predicate LeftStopped(s: State, t: State, g: Pid) {
    && !IsOrphaned(s, g)
    && IsOrphaned(t, g)
    && exists m :: m in t.groups[g] && m in t.procs && t.procs[m].status.Stopped?
  }

  lemma DisownRouses(s: State, cur: Pid, order: Order, g: Pid)
    requires GroupsAgree(s) && CanRouse(s) && cur != INIT
    requires g in s.groups && Affected(s, cur, g) ==> g in order.pgrps
    ensures !LeftStopped(s, Disown(s, cur, order), g)
  {
    var was := Drain(s, INIT);
    var moved := Reparent(was, cur, order.kids);
    var t := Disown(s, cur, order);
    DrainCalm(s, INIT);
    CanRouseCalm(s, was);
    CalmSkeleton(s, was);
    SkeletonKeeps(s, was);
    ReparentCalm(was, cur, order.kids);
    CanRouseCalm(was, moved);
    SameOrphans(s, was, g);
    RouseOrphansParents(moved, was, cur, order.pgrps);
    RouseOrphansCalm(moved, was, cur, order.pgrps);
    CalmRelations(moved, t);
    SameOrphans(moved, t, g);
    if !IsOrphaned(s, g) && IsOrphaned(t, g) {
      OnlyChildrensGroupsChange(was, cur, order.kids, g);
      assert Affected(s, cur, g) by { assert forall p :: IsChild(was, p, cur) == IsChild(s, p, cur); }
      RouseOrphansWorks(moved, was, cur, order.pgrps, g);
    }
  }

  /** What the exit machinery relies on; every reachable state has it. */
  ghost predicate Sound(s: State) {
    IsTree(s) && GroupsAgree(s) && StoppedMapped(s)
  }

  /** Filing a record rouses and orphans nobody. */
  lemma ReportChangesNothing(s: State, b: State, parent: Pid, child: Pid, pgid: Pid, st: WaitpidStatus, g: Pid)
    requires parent in b.procs && !LeftStopped(s, b, g)
    ensures !LeftStopped(s, Report(b, parent, child, pgid, st), g)
  {
    SameOrphans(b, Report(b, parent, child, pgid, st), g);
  }

  lemma AfterExitRouses(s: State, cur: Pid, order: Order, g: Pid)
    requires GroupsAgree(s) && CanRouse(s) && cur in s.procs && s.procs[cur].status.Exited? && cur != INIT
    requires g in s.groups && Affected(s, cur, g) ==> g in order.pgrps
    ensures !LeftStopped(s, AfterExit(s, cur, order), g)
  {
    var t := AfterExit(s, cur, order);
    AfterExitShape(s, cur, order);
    if s.procs[cur].ppid in s.procs {
      DisownRouses(s, cur, order, g);
      var q := s.procs[cur];
      ReportChangesNothing(s, Disown(s, cur, order), q.ppid, cur, q.pgid, Terminated(q.status.fate), g);
      assert t == Report(Disown(s, cur, order), q.ppid, cur, q.pgid, Terminated(q.status.fate));
    } else {
      assert t == s;
    }
  }

  lemma ThreadsWaitRouses(s: State, id: VirtualId, order: Order, g: Pid)
    requires Sound(s) && id in s.states && s.states[id].AwaitingThreadsTermination?
    requires g in s.groups && Affected(s, s.states[id].pid, g) ==> g in order.pgrps
    ensures !LeftStopped(s, WorkOn(s, id, order, None).0, g)
  {
    var t, pid := WorkOn(s, id, order, None).0, s.states[id].pid;
    if pid in s.procs && s.procs[pid].threads == {} && s.procs[pid].status.Exiting? {
      var s1 := Put(Forget(s, id), pid, s.procs[pid].(status := Exited(s.procs[pid].status.fate)));
      SkeletonKeeps(s, s1);
      SameOrphans(s, s1, g);
      assert Affected(s1, pid, g) ==> Affected(s, pid, g) by {
        assert forall p :: IsChild(s1, p, pid) == IsChild(s, p, pid);
      }
      AfterExitRouses(s1, pid, order, g);
      assert t == AfterExit(s1, pid, order);
    } else {
      SameOrphans(s, t, g);
    }
  }

  lemma ExitStartRouses(s: State, id: VirtualId, pid: Pid, raw: nat, tag: bool, order: Order, g: Pid)
    requires Sound(s) && pid != INIT
    requires g in s.groups && Affected(s, pid, g) ==> g in order.pgrps
    ensures !LeftStopped(s, ExitStart(s, id, pid, raw, tag, order).0, g)
  {
    var t := ExitStart(s, id, pid, raw, tag, order).0;
    if pid in s.procs && !s.procs[pid].status.Ending() && DecodeExit(raw).Some? {
      var s1 := Armed(s, id, pid, DecodeExit(raw).value, tag);
      SkeletonKeeps(s, s1);
      FamilyKeeps(s, s1);
      SameOrphans(s, s1, g);
      assert Affected(s1, pid, g) ==> Affected(s, pid, g) by {
        assert forall p :: IsChild(s1, p, pid) == IsChild(s, p, pid);
      }
      ThreadsWaitRouses(s1, id, order, g);
      assert t == WorkOn(s1, id, order, None).0;
    } else {
      assert t == s;
    }
  }

  lemma LastThreadRouses(s: State, id: VirtualId, pid: Pid, raw: nat, order: Order, g: Pid)
    requires Sound(s) && pid != INIT
    requires g in s.groups && Affected(s, pid, g) ==> g in order.pgrps
    ensures !LeftStopped(s, LastThread(s, id, pid, raw, order), g)
  {
    if id !in s.states {
      ExitStartRouses(s, id, pid, raw, false, order, g);
      assert LastThread(s, id, pid, raw, order) == ExitStart(s, id, pid, raw, false, order).0;
    }
  }

  /** Losing a thread that is not the last, or while exiting, changes no relation. */
  lemma OtherDeaths(s: State, pid: Pid, tid: Tid, raw: nat, order: Order)
    requires !(pid in s.procs && tid in s.procs[pid].threads && !s.procs[pid].status.Exiting? && s.procs[pid].threads - {tid} == {})
    ensures SameRelations(s, ThreadDeath(s, pid, tid, raw, order))
    ensures forall p | p in s.procs :: ThreadDeath(s, pid, tid, raw, order).procs[p].status == s.procs[p].status
  {
    var t := ThreadDeath(s, pid, tid, raw, order);
    if pid in s.procs && tid in s.procs[pid].threads {
      var s1 := DropThread(s, pid, tid);
      assert t == s1 || t == WakeAwaiting(s1, pid);
    }
  }

  lemma ThreadDeathRouses(s: State, pid: Pid, tid: Tid, raw: nat, order: Order, g: Pid)
    requires Sound(s) && (pid == INIT ==> !(s.procs[INIT].threads <= {tid}))
    requires g in s.groups && Affected(s, pid, g) ==> g in order.pgrps
    ensures !LeftStopped(s, ThreadDeath(s, pid, tid, raw, order), g)
  {
    var t := ThreadDeath(s, pid, tid, raw, order);
    if pid in s.procs && tid in s.procs[pid].threads && !s.procs[pid].status.Exiting? && s.procs[pid].threads - {tid} == {} {
      var s1, id := Bumped(DropThread(s, pid, tid)), InternalId(s.nextInternal);
      SkeletonKeeps(s, s1);
      FamilyKeeps(s, s1);
      SameOrphans(s, s1, g);
      assert Affected(s1, pid, g) ==> Affected(s, pid, g) by {
        assert forall p :: IsChild(s1, p, pid) == IsChild(s, p, pid);
      }
      LastThreadRouses(s1, id, pid, raw, order, g);
      assert t == LastThread(s1, id, pid, raw, order);
    } else {
      OtherDeaths(s, pid, tid, raw, order);
      SameOrphans(s, t, g);
    }
  }

  lemma EnderRouses(s: State, i: Input, g: Pid)
    requires Sound(s) && InitLives(s, i) && WalksAll(s, i) && Ender(s, i.event).Some?
    ensures !LeftStopped(s, Next(s, i), g)
  {
    match i.event
    case Call(n, caller, verb) =>
      var s0 := Forget(s, KernelId(n));
      SkeletonKeeps(s, s0);
      FamilyKeeps(s, s0);
      SameOrphans(s, s0, g);
      assert Affected(s0, caller, g) == Affected(s, caller, g) by {
        assert forall p :: IsChild(s0, p, caller) == IsChild(s, p, caller);
      }
      ExitStartRouses(s0, KernelId(n), caller, verb.raw, true, i.order, g);
      assert Next(s, i) == ExitStart(s0, KernelId(n), caller, verb.raw, true, i.order).0;
    case Death(pid, tid, raw) =>
      ThreadDeathRouses(s, pid, tid, raw, i.order, g);
    case WakeEvent =>
      var s1, id := s.(awoken := s.awoken[1..]), s.awoken[0];
      SkeletonKeeps(s, s1);
      FamilyKeeps(s, s1);
      SameOrphans(s, s1, g);
      assert Affected(s1, s.states[id].pid, g) == Affected(s, s.states[id].pid, g) by {
        assert forall p :: IsChild(s1, p, s.states[id].pid) == IsChild(s, p, s.states[id].pid);
      }
      ThreadsWaitRouses(s1, id, i.order, g);
      assert Next(s, i) == WorkOn(s1, id, i.order, None).0;
  }

  lemma {:induction false} RunSound(s: State, ins: seq<Input>, log: map<Pid, Fate>)
    requires Sound(s) && ProcFates.FatesFrozen(s, log) && ProcPids.PidsKnown(s) && Along(s, ins, Orderly)
    ensures Sound(Run(s, ins))
    decreases ins
  {
    if ins != [] {
      ProcTree.NextKeeps(s, ins[0], log);
      ProcGroups.NextKeeps(s, ins[0]);
      NextStops(s, ins[0]);
      ProcPids.NextKeeps(s, ins[0]);
      var log' := ProcFates.NextKeeps(s, ins[0], log);
      RunSound(Next(s, ins[0]), ins[1..], log');
    }
  }

  /**
   In every run in which init lives, a step that can complete an exit leaves no stopped member in
   any group of the whole table that it turned from not orphaned into orphaned.
   */
  lemma OrphanedGroupsAreRoused(tid: Tid, ins: seq<Input>, i: Input, g: Pid)
    requires Along(Claimed(tid), ins, Orderly)
    requires var s := Run(Claimed(tid), ins); Orderly(s, i) && Ender(s, i.event).Some?
    ensures var s := Run(Claimed(tid), ins); !LeftStopped(s, Next(s, i), g)
  {
    var s0 := Claimed(tid);
    ProcFates.SameKeeps(s0, s0, map[]);
    RunSound(s0, ins, map[]);
    EnderRouses(Run(s0, ins), i, g);
  }
}
