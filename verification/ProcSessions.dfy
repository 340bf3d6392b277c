/** When a process group stays within one session: exactly until setpgid moves a process across. */
module ProcSessions {
  import opened Prelude
  import opened ProcModel
  import opened ProcFrame
  import opened ProcRuns
  import opened ProcGroups

  /** Processes of one group are in one session. */
  ghost predicate SessionsUniform(s: State) {
    forall p, q | p in s.procs && q in s.procs && s.procs[p].pgid == s.procs[q].pgid :: s.procs[p].sid == s.procs[q].sid
  }

  // ---------------------------------------------------------------- steps that move nobody

  ghost predicate StaysPut(s: State, t: State, p: Pid)
    requires p in t.procs
  {
    p in s.procs && t.procs[p].pgid == s.procs[p].pgid && t.procs[p].sid == s.procs[p].sid
  }

  /** Nobody appears and nobody changes group or session. */
  ghost predicate Placed(s: State, t: State) {
    forall p {:trigger StaysPut(s, t, p)} | p in t.procs :: StaysPut(s, t, p)
  }

  lemma PlacedTrans(s: State, t: State, u: State)
    requires Placed(s, t) && Placed(t, u)
    ensures Placed(s, u)
  {
    forall p | p in u.procs ensures StaysPut(s, u, p) { assert StaysPut(t, u, p) && StaysPut(s, t, p); }
  }

  lemma PlacedKeeps(s: State, t: State)
    requires SessionsUniform(s) && Placed(s, t)
    ensures SessionsUniform(t)
  {
    forall p, q | p in t.procs && q in t.procs && t.procs[p].pgid == t.procs[q].pgid ensures t.procs[p].sid == t.procs[q].sid {
      assert StaysPut(s, t, p) && StaysPut(s, t, q);
    }
  }

  lemma CalmPlaced(s: State, t: State)
    requires Calm(s, t)
    ensures Placed(s, t)
  {
    forall p | p in t.procs ensures StaysPut(s, t, p) { assert CalmProc(s, t, p); }
  }

  lemma CompletePlaced(s: State, id: VirtualId, pid: Pid, order: Order)
    requires pid in s.procs && s.procs[pid].status.Exiting?
    ensures Placed(s, Complete(s, id, pid, order))
  {
    var s1 := Put(Forget(s, id), pid, s.procs[pid].(status := Exited(s.procs[pid].status.fate)));
    AfterExitCalm(s1, pid, order);
    CalmPlaced(s1, AfterExit(s1, pid, order));
    PlacedTrans(s, s1, AfterExit(s1, pid, order));
  }

  lemma WorkOnPlaced(s: State, id: VirtualId, order: Order, hit: Option<Pid>)
    requires id in s.states
    ensures Placed(s, WorkOn(s, id, order, hit).0)
  {
    var t := WorkOn(s, id, order, hit).0;
    match s.states[id]
    case Placeholder =>
    case AwaitingThreadsTermination(pid, tag) =>
      if pid in s.procs && s.procs[pid].threads == {} && s.procs[pid].status.Exiting? {
        CompletePlaced(s, id, pid, order);
        assert t == Complete(s, id, pid, order);
      }
    case AwaitingStatusChange(w, target, flags) =>
      OnWaitpidFrame(s, w, target, flags, id, hit);
      var s1 := OnWaitpid(s, w, target, flags, id, hit).0;
      assert t == s1 || t == Spend(s1, id);
      forall p | p in t.procs ensures StaysPut(s, t, p) { assert WaitedProc(s, s1, p, id); }
  }

  lemma ExitStartPlaced(s: State, id: VirtualId, pid: Pid, raw: nat, tag: bool, order: Order)
    ensures Placed(s, ExitStart(s, id, pid, raw, tag, order).0)
  {
    if pid in s.procs && !s.procs[pid].status.Ending() && DecodeExit(raw).Some? {
      var s1 := Armed(s, id, pid, DecodeExit(raw).value, tag);
      WorkOnPlaced(s1, id, order, None);
      PlacedTrans(s, s1, WorkOn(s1, id, order, None).0);
    }
  }

  lemma ThreadDeathPlaced(s: State, pid: Pid, tid: Tid, raw: nat, order: Order)
    ensures Placed(s, ThreadDeath(s, pid, tid, raw, order))
  {
    var r := ThreadDeath(s, pid, tid, raw, order);
    if pid in s.procs && tid in s.procs[pid].threads {
      var s1 := DropThread(s, pid, tid);
      if s1.procs[pid].status.Exiting? {
        assert r == WakeAwaiting(s1, pid);
      } else {
        var id := InternalId(s.nextInternal);
        ExitStartPlaced(Bumped(s1), id, pid, raw, false, order);
        PlacedTrans(s, Bumped(s1), ExitStart(Bumped(s1), id, pid, raw, false, order).0);
      }
    }
  }

  /** Calls other than the two that are about groups and sessions. */
  lemma CallPlaced(s: State, n: nat, caller: Pid, verb: Verb, order: Order, hit: Option<Pid>)
    requires !verb.SetpgidCall? && !verb.SetsidCall?
    ensures Placed(s, OnCall(s, n, caller, verb, order, hit).0)
  {
    var s0, t := Forget(s, KernelId(n)), OnCall(s, n, caller, verb, order, hit).0;
    assert Placed(s, s0);
    match verb
    case Exit(raw) =>
      ExitStartPlaced(s0, KernelId(n), caller, raw, true, order);
      PlacedTrans(s, s0, t);
    case Waitpid(target, flags) =>
      var s1 := s0.(states := s0.states[KernelId(n) := AwaitingStatusChange(caller, target, flags)]);
      WorkOnPlaced(s1, KernelId(n), order, hit);
      PlacedTrans(s, s1, t);
    case Kill(victim, sig, willStop) =>
      SendSigCalm(s0, caller, victim, sig, willStop);
      CalmPlaced(s0, t);
      PlacedTrans(s, s0, t);
    case _ =>
  }

  // ---------------------------------------------------------------- steps that move somebody

  /** The new session leader must not find its group id in use, which setsid checks. */
  lemma SetsidKeepsSessions(s: State, caller: Pid)
    requires SessionsUniform(s)
    ensures SessionsUniform(Setsid(s, caller).0)
  {}

  /** What setpgid demands: a caller may move itself or its child, within its own session, before exec. */
  ghost predicate Movable(s: State, caller: Pid, target: Pid, newPgid: Pid) {
    && caller in s.procs && target in s.procs
    && var c, q := s.procs[caller], s.procs[target];
       && (target == caller || q.ppid == caller)
       && (q.ppid == target || q.ppid in s.procs)
       && q.sid != target && q.sid == c.sid
       && (newPgid == target || exists m | m in s.procs :: s.procs[m].pgid == newPgid)
       && !(q.ppid == caller && q.disabledSetpgid)
  }

  /** Where the group index agrees with the table, setpgid succeeds exactly under these conditions. */
  lemma GrantedIff(s: State, caller: Pid, target: Pid, newPgid: Pid)
    requires GroupsAgree(s)
    ensures Setpgid(s, caller, target, newPgid).1.None? <==> Movable(s, caller, target, newPgid)
  {
    if newPgid in s.groups {
      assert GroupSound(s, newPgid);
      assert s.groups[newPgid][0] in s.groups[newPgid];
    }
    forall m | m in s.procs && s.procs[m].pgid == newPgid ensures newPgid in s.groups { assert Indexed(s, m); }
    if target in s.procs && s.procs[target].pgid != newPgid { SetPgidKeeps(s, target, newPgid); }
  }

  /** The call may move `target`, and does so into a group some member of which is in another session. */
  ghost predicate Crosses(s: State, caller: Pid, target: Pid, newPgid: Pid) {
    && Movable(s, caller, target, newPgid)
    && s.procs[target].pgid != newPgid
    && exists m | m in s.procs :: s.procs[m].pgid == newPgid && s.procs[m].sid != s.procs[target].sid
  }

  lemma CrossingMixes(s: State, caller: Pid, target: Pid, newPgid: Pid)
    requires GroupsAgree(s) && Crosses(s, caller, target, newPgid)
    ensures !SessionsUniform(Setpgid(s, caller, target, newPgid).0)
  {
    var t := Setpgid(s, caller, target, newPgid).0;
    GrantedIff(s, caller, target, newPgid);
    var m :| m in s.procs && s.procs[m].pgid == newPgid && s.procs[m].sid != s.procs[target].sid;
    assert t.procs[m].pgid == t.procs[target].pgid && t.procs[m].sid != t.procs[target].sid;
  }

  lemma OthersKeep(s: State, caller: Pid, target: Pid, newPgid: Pid)
    requires SessionsUniform(s) && GroupsAgree(s) && !Crosses(s, caller, target, newPgid)
    ensures SessionsUniform(Setpgid(s, caller, target, newPgid).0)
  {
    var (t, err) := Setpgid(s, caller, target, newPgid);
    GrantedIff(s, caller, target, newPgid);
    if err.None? && target in s.procs && s.procs[target].pgid != newPgid {
      assert forall p | p in t.procs && p != target :: StaysPut(s, t, p);
    } else {
      assert Placed(s, t);
      PlacedKeeps(s, t);
    }
  }

  lemma SetpgidKeepsIff(s: State, caller: Pid, target: Pid, newPgid: Pid)
    requires SessionsUniform(s) && GroupsAgree(s)
    ensures SessionsUniform(Setpgid(s, caller, target, newPgid).0) <==> !Crosses(s, caller, target, newPgid)
  {
    if Crosses(s, caller, target, newPgid) {
      CrossingMixes(s, caller, target, newPgid);
    } else {
      OthersKeep(s, caller, target, newPgid);
    }
  }

  lemma ForkKeepsSessions(s: State, parent: Pid, tid: Tid)
    requires SessionsUniform(s)
    ensures SessionsUniform(Fork(s, parent, tid))
  {}

  // ---------------------------------------------------------------- every step

  /** The step is a setpgid that takes a process into a group of another session. */
  ghost predicate CrossesSessions(s: State, i: Input) {
    i.event.Call? && i.event.verb.SetpgidCall? && Crosses(s, i.event.caller, i.event.verb.member, i.event.verb.newPgid)
  }

  lemma CrossesForget(s: State, n: nat, caller: Pid, target: Pid, newPgid: Pid)
    ensures Crosses(Forget(s, KernelId(n)), caller, target, newPgid) <==> Crosses(s, caller, target, newPgid)
  {}

  lemma CallKeepsIff(s: State, n: nat, caller: Pid, verb: Verb, order: Order, hit: Option<Pid>)
    requires SessionsUniform(s) && GroupsAgree(s)
    ensures SessionsUniform(OnCall(s, n, caller, verb, order, hit).0) <==>
            !(verb.SetpgidCall? && Crosses(s, caller, verb.member, verb.newPgid))
  {
    var s0 := Forget(s, KernelId(n));
    PlacedKeeps(s, s0);
    SkeletonKeeps(s, s0);
    if verb.SetpgidCall? {
      SetpgidKeepsIff(s0, caller, verb.member, verb.newPgid);
      CrossesForget(s, n, caller, verb.member, verb.newPgid);
    } else if verb.SetsidCall? {
      SetsidKeepsSessions(s0, caller);
    } else {
      CallPlaced(s, n, caller, verb, order, hit);
      PlacedKeeps(s, OnCall(s, n, caller, verb, order, hit).0);
    }
  }

  /**
   Groups stay within their sessions under every step except a setpgid into a group of another
   session, which the manager does not refuse.
   */
  lemma SessionsUniformIff(s: State, i: Input)
    requires SessionsUniform(s) && GroupsAgree(s)
    ensures SessionsUniform(Next(s, i)) <==> !CrossesSessions(s, i)
  {
    var t := Next(s, i);
    match i.event
    case ForkEvent(parent, tid) => ForkKeepsSessions(s, parent, tid);
    case ThreadEvent(pid, tid) => PlacedKeeps(s, t);
    case Call(n, caller, verb) => CallKeepsIff(s, n, caller, verb, i.order, i.hit);
    case CancelEvent(n) => PlacedKeeps(s, t);
    case Death(pid, tid, raw) =>
      ThreadDeathPlaced(s, pid, tid, raw, i.order);
      PlacedKeeps(s, t);
    case WakeEvent =>
      if s.awoken != [] {
        var s1 := s.(awoken := s.awoken[1..]);
        if s.awoken[0] in s1.states {
          WorkOnPlaced(s1, s.awoken[0], i.order, i.hit);
          assert t == WorkOn(s1, s.awoken[0], i.order, i.hit).0;
          PlacedTrans(s, s1, t);
        }
        PlacedKeeps(s, t);
      }
  }

  ghost predicate CrossesNot(s: State, i: Input) { !CrossesSessions(s, i) }

  /** At every moment of the run. */
  ghost predicate AlwaysUniform(s: State, ins: seq<Input>)
    decreases ins
  {
    SessionsUniform(s) && (ins != [] ==> AlwaysUniform(Next(s, ins[0]), ins[1..]))
  }

  lemma {:induction false} RunUniformIff(s: State, ins: seq<Input>)
    requires SessionsUniform(s) && GroupsAgree(s)
    ensures AlwaysUniform(s, ins) <==> Along(s, ins, CrossesNot)
    decreases ins
  {
    if ins != [] {
      SessionsUniformIff(s, ins[0]);
      NextKeeps(s, ins[0]);
      if SessionsUniform(Next(s, ins[0])) { RunUniformIff(Next(s, ins[0]), ins[1..]); }
    }
  }

  /** Groups stay within their sessions throughout a run exactly if no setpgid of it crosses. */
  lemma RunsUniformIff(tid: Tid, ins: seq<Input>)
    ensures AlwaysUniform(Claimed(tid), ins) <==> Along(Claimed(tid), ins, CrossesNot)
  {
    assert GroupsAgree(Claimed(tid)) by { GroupIndexAgrees(tid, []); }
    RunUniformIff(Claimed(tid), ins);
  }

  // ---------------------------------------------------------------- it happens

  function Member(tid: Tid, pgid: Pid): Process {
    Process({tid}, 1, pgid, pgid, 0, 0, PossiblyRunnable, false, [], map[], [], false)
  }

  const THREE_KIN := State(map[1 := Member(10, 1), 2 := Member(20, 1), 3 := Member(30, 1)], map[1 := [1, 2, 3]], 4, 1, map[], [])

  lemma ThreeKinForked()
    ensures Fork(Fork(Claimed(10), 1, 20), 1, 30) == THREE_KIN
  {
    assert Fork(Claimed(10), 1, 20).groups[1] == [1, 2];
    assert [1, 2] + [3] == [1, 2, 3];
  }

  /** A successful setsid makes the caller the only member of a new group and session. */
  lemma NewSession(s: State, c: Pid)
    requires Setsid(s, c).1.None?
    ensures
      var t := Setsid(s, c).0;
      && t.procs.Keys == s.procs.Keys && c in s.procs && c in t.groups
      && t.procs[c].pgid == c && t.procs[c].sid == c
      && (forall p | p in s.procs && p != c :: t.procs[p].(waitpidWaiting := []) == s.procs[p].(waitpidWaiting := []))
  {}

  /** Process 2 makes its own session; init then moves its other child 3 into the group of 2. */
  lemma SetpgidCrossesSessions()
    ensures
      var s := Setsid(Fork(Fork(Claimed(10), 1, 20), 1, 30), 2).0;
      Setpgid(s, 1, 3, 2).1.None? && Crosses(s, 1, 3, 2)
  {
    ThreeKinForked();
    SecondLeads();
    OutsiderMayJoin(Setsid(THREE_KIN, 2).0);
  }

  lemma SetsidGranted()
    ensures Setsid(THREE_KIN, 2).1.None? && 1 in Setsid(THREE_KIN, 2).0.groups
  {
    assert 1 in Without(THREE_KIN.groups[1], 2);
  }

  lemma SecondLeads()
    ensures Outsider(Setsid(THREE_KIN, 2).0)
  {
    SetsidGranted();
    NewSession(THREE_KIN, 2);
  }

  ghost predicate Outsider(s: State) {
    && {1, 2, 3} <= s.procs.Keys && 2 in s.groups && 1 in s.groups
    && s.procs[3].ppid == 1 && s.procs[3].sid == 1 && s.procs[3].pgid == 1 && !s.procs[3].disabledSetpgid
    && s.procs[1].sid == 1 && s.procs[2].pgid == 2 && s.procs[2].sid == 2
  }

  lemma OutsiderMayJoin(s: State)
    requires Outsider(s)
    ensures Setpgid(s, 1, 3, 2).1.None? && Crosses(s, 1, 3, 2)
  {
    assert s.procs[2].pgid == 2 && s.procs[2].sid != s.procs[3].sid;
  }
}
