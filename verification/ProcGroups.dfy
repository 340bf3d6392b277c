/** The index by process group agrees with the process table in every reachable state. */
module ProcGroups {
  import opened Prelude
  import opened ProcModel
  import opened ProcFrame
  import opened ProcRuns

  ghost predicate Indexed(s: State, p: Pid)
    requires p in s.procs
  {
    && p < s.nextId
    && s.procs[p].pgid in s.groups
    && multiset(s.groups[s.procs[p].pgid])[p] == 1
  }

  ghost predicate GroupSound(s: State, g: Pid)
    requires g in s.groups
  {
    && s.groups[g] != []
    && forall m | m in s.groups[g] :: m in s.procs && s.procs[m].pgid == g
  }

  /** Each process is exactly once in the group its pgid names, and groups hold nothing else. */
  ghost predicate GroupsAgree(s: State) {
    && (forall p {:trigger Indexed(s, p)} | p in s.procs :: Indexed(s, p))
    && (forall g {:trigger GroupSound(s, g)} | g in s.groups :: GroupSound(s, g))
  }

  /** Nothing the index depends on differs. */
  ghost predicate SameSkeleton(s: State, t: State) {
    && t.procs.Keys == s.procs.Keys
    && t.groups == s.groups
    && t.nextId == s.nextId
    && forall p | p in s.procs :: t.procs[p].pgid == s.procs[p].pgid
  }

  lemma SkeletonKeeps(s: State, t: State)
    requires GroupsAgree(s) && SameSkeleton(s, t)
    ensures GroupsAgree(t)
  {
    forall p | p in t.procs ensures Indexed(t, p) { assert Indexed(s, p); }
    forall g | g in t.groups ensures GroupSound(t, g) { assert GroupSound(s, g); }
  }

  lemma CalmSkeleton(s: State, t: State)
    requires Calm(s, t)
    ensures SameSkeleton(s, t)
  {
    forall p | p in s.procs ensures t.procs[p].pgid == s.procs[p].pgid { assert CalmProc(s, t, p); }
  }

  /** Taking a process out of the table and out of its group. */
  lemma DepartKeeps(s: State, pid: Pid)
    requires GroupsAgree(s) && pid in s.procs
    ensures s.procs[pid].pgid in s.groups
    ensures GroupsAgree(s.(procs := s.procs - {pid}, groups := Leave(s.groups, s.procs[pid].pgid, pid)))
  {
    assert Indexed(s, pid);
    var g := s.procs[pid].pgid;
    var t := s.(procs := s.procs - {pid}, groups := Leave(s.groups, g, pid));
    var rest := Without(s.groups[g], pid);
    forall p | p in t.procs ensures Indexed(t, p) {
      assert Indexed(s, p);
      if s.procs[p].pgid == g { assert p in multiset(rest); }
    }
    forall h | h in t.groups ensures GroupSound(t, h) { assert GroupSound(s, h); }
  }

  /** Adding a process to the table and to the group it names. */
  lemma ArriveKeeps(s: State, pid: Pid, q: Process)
    requires GroupsAgree(s) && pid !in s.procs && pid < s.nextId
    ensures GroupsAgree(Put(s, pid, q).(groups := Join(s.groups, q.pgid, pid)))
  {
    var t := Put(s, pid, q).(groups := Join(s.groups, q.pgid, pid));
    if q.pgid in s.groups { assert GroupSound(s, q.pgid); }
    forall p | p in t.procs ensures Indexed(t, p) { if p != pid { assert Indexed(s, p); } }
    forall h | h in t.groups ensures GroupSound(t, h) { if h in s.groups { assert GroupSound(s, h); } }
  }

  lemma ForkKeeps(s: State, parent: Pid, tid: Tid)
    requires GroupsAgree(s)
    ensures GroupsAgree(Fork(s, parent, tid))
  {
    var s1 := s.(nextId := s.nextId + 1);
    forall p | p in s1.procs ensures Indexed(s1, p) { assert Indexed(s, p); }
    forall g | g in s1.groups ensures GroupSound(s1, g) { assert GroupSound(s, g); }
    if parent in s.procs {
      assert Indexed(s, parent);
      assert forall p | p in s.procs :: Indexed(s, p) ==> p < s.nextId;
      var q := Fork(s, parent, tid).procs[s.nextId];
      ArriveKeeps(s1, s.nextId, q);
    }
  }

  lemma MoveKeeps(s: State, pid: Pid, newPgid: Pid)
    requires GroupsAgree(s) && pid in s.procs
    ensures s.procs[pid].pgid in s.groups
    ensures
      var groups := Join(Leave(s.groups, s.procs[pid].pgid, pid), newPgid, pid);
      GroupsAgree(Put(s, pid, s.procs[pid].(pgid := newPgid)).(groups := groups))
  {
    DepartKeeps(s, pid);
    assert Indexed(s, pid);
    var s1 := s.(procs := s.procs - {pid}, groups := Leave(s.groups, s.procs[pid].pgid, pid));
    var q := s.procs[pid].(pgid := newPgid);
    ArriveKeeps(s1, pid, q);
    assert Put(s1, pid, q).procs == Put(s, pid, q).procs;
  }

  lemma SetPgidKeeps(s: State, pid: Pid, newPgid: Pid)
    requires GroupsAgree(s) && pid in s.procs && newPgid != s.procs[pid].pgid
    ensures GroupsAgree(SetPgid(s, pid, newPgid).0)
    ensures SetPgid(s, pid, newPgid).1.None?
  {
    var q := s.procs[pid];
    var s1 := if q.ppid != pid && q.ppid in s.procs then Drain(s, q.ppid) else s;
    SkeletonKeeps(s, s1);
    MoveKeeps(s1, pid, newPgid);
  }

  lemma SetsidKeeps(s: State, caller: Pid)
    requires GroupsAgree(s)
    ensures GroupsAgree(Setsid(s, caller).0)
  {
    if caller in s.procs && s.procs[caller].pgid != caller {
      SetPgidKeeps(s, caller, caller);
      var s1 := SetPgid(s, caller, caller).0;
      SkeletonKeeps(s1, Put(s1, caller, s1.procs[caller].(sid := caller)));
    }
  }

  lemma ReapKeeps(s: State, pid: Pid)
    requires GroupsAgree(s)
    ensures GroupsAgree(Reap(s, pid))
  {
    if Reap(s, pid) != s { DepartKeeps(s, pid); }
  }

  lemma OnWaitpidKeeps(s: State, w: Pid, target: WaitpidTarget, flags: WaitFlags, id: VirtualId, hit: Option<Pid>)
    requires GroupsAgree(s)
    ensures GroupsAgree(OnWaitpid(s, w, target, flags, id, hit).0)
  {
    var r := OnWaitpid(s, w, target, flags, id, hit).0;
    if WaitpidRefusal(s, w, target).Some? {
      assert r == s;
    } else {
      var news := Pick(s, w, target, hit);
      if news.None? {
        SkeletonKeeps(s, r);
      } else {
        var s1 := TakeRecord(s, w, news.value.0);
        SkeletonKeeps(s, s1);
        if news.value.1.Terminated? {
          ReapKeeps(s1, news.value.0);
          assert r == Reap(s1, news.value.0);
        } else {
          assert r == s1;
        }
      }
    }
  }

  lemma CompleteKeeps(s: State, id: VirtualId, pid: Pid, order: Order)
    requires GroupsAgree(s) && pid in s.procs && s.procs[pid].status.Exiting?
    ensures GroupsAgree(Complete(s, id, pid, order))
  {
    var s1 := Put(Forget(s, id), pid, s.procs[pid].(status := Exited(s.procs[pid].status.fate)));
    AfterExitCalm(s1, pid, order);
    CalmSkeleton(s1, Complete(s, id, pid, order));
    SkeletonKeeps(s, s1);
    SkeletonKeeps(s1, Complete(s, id, pid, order));
  }

  lemma WorkOnKeeps(s: State, id: VirtualId, order: Order, hit: Option<Pid>)
    requires GroupsAgree(s) && id in s.states
    ensures GroupsAgree(WorkOn(s, id, order, hit).0)
  {
    SkeletonKeeps(s, Spend(s, id));
    SkeletonKeeps(s, Forget(s, id));
    match s.states[id]
    case Placeholder =>
    case AwaitingThreadsTermination(pid, tag) =>
      if pid in s.procs {
        SkeletonKeeps(s, AwaitThreads(s, id, pid));
        if s.procs[pid].status.Exiting? { CompleteKeeps(s, id, pid, order); }
      }
    case AwaitingStatusChange(w, target, flags) =>
      OnWaitpidKeeps(s, w, target, flags, id, hit);
      var s1 := OnWaitpid(s, w, target, flags, id, hit).0;
      SkeletonKeeps(s1, Spend(s1, id));
  }

  lemma ExitStartKeeps(s: State, id: VirtualId, pid: Pid, raw: nat, tag: bool, order: Order)
    requires GroupsAgree(s)
    ensures GroupsAgree(ExitStart(s, id, pid, raw, tag, order).0)
  {
    if pid in s.procs && DecodeExit(raw).Some? {
      var s1 := Armed(s, id, pid, DecodeExit(raw).value, tag);
      SkeletonKeeps(s, s1);
      WorkOnKeeps(s1, id, order, None);
    }
  }

  lemma ThreadDeathKeeps(s: State, pid: Pid, tid: Tid, raw: nat, order: Order)
    requires GroupsAgree(s)
    ensures GroupsAgree(ThreadDeath(s, pid, tid, raw, order))
  {
    var r := ThreadDeath(s, pid, tid, raw, order);
    if pid in s.procs && tid in s.procs[pid].threads {
      var s1 := DropThread(s, pid, tid);
      if s1.procs[pid].status.Exiting? || s1.procs[pid].threads != {} {
        SkeletonKeeps(s, r);
      } else {
        SkeletonKeeps(s, Bumped(s1));
        ExitStartKeeps(Bumped(s1), InternalId(s.nextInternal), pid, raw, false, order);
      }
    }
  }

  lemma OnCallKeeps(s: State, n: nat, caller: Pid, verb: Verb, order: Order, hit: Option<Pid>)
    requires GroupsAgree(s)
    ensures GroupsAgree(OnCall(s, n, caller, verb, order, hit).0)
  {
    var s0 := Forget(s, KernelId(n));
    SkeletonKeeps(s, s0);
    match verb
    case Exit(raw) => ExitStartKeeps(s0, KernelId(n), caller, raw, true, order);
    case Waitpid(target, flags) =>
      var s1 := s0.(states := s0.states[KernelId(n) := AwaitingStatusChange(caller, target, flags)]);
      SkeletonKeeps(s0, s1);
      WorkOnKeeps(s1, KernelId(n), order, hit);
    case SetpgidCall(member, newPgid) =>
      if Setpgid(s0, caller, member, newPgid).0 != s0 { SetPgidKeeps(s0, member, newPgid); }
    case SetsidCall => SetsidKeeps(s0, caller);
    case Kill(victim, sig, willStop) =>
      SendSigCalm(s0, caller, victim, sig, willStop);
      CalmSkeleton(s0, SendSig(s0, caller, victim, sig, willStop).0);
      SkeletonKeeps(s0, SendSig(s0, caller, victim, sig, willStop).0);
    case _ => SkeletonKeeps(s0, OnCall(s, n, caller, verb, order, hit).0);
  }

  lemma NextKeeps(s: State, i: Input)
    requires GroupsAgree(s)
    ensures GroupsAgree(Next(s, i))
  {
    match i.event
    case ForkEvent(parent, tid) => ForkKeeps(s, parent, tid);
    case ThreadEvent(pid, tid) => SkeletonKeeps(s, NewThread(s, pid, tid));
    case Call(n, caller, verb) => OnCallKeeps(s, n, caller, verb, i.order, i.hit);
    case CancelEvent(n) => SkeletonKeeps(s, Cancel(s, n).0);
    case Death(pid, tid, raw) => ThreadDeathKeeps(s, pid, tid, raw, i.order);
    case WakeEvent =>
      if s.awoken != [] {
        var s1 := s.(awoken := s.awoken[1..]);
        SkeletonKeeps(s, s1);
        if s.awoken[0] in s1.states { WorkOnKeeps(s1, s.awoken[0], i.order, i.hit); }
      }
  }

  lemma {:induction false} RunKeeps(s: State, ins: seq<Input>)
    requires GroupsAgree(s)
    ensures GroupsAgree(Run(s, ins))
    decreases ins
  {
    if ins != [] {
      NextKeeps(s, ins[0]);
      RunKeeps(Next(s, ins[0]), ins[1..]);
    }
  }

  /** After any events whatsoever, in any order, the group index and the process table agree. */
  lemma GroupIndexAgrees(tid: Tid, ins: seq<Input>)
    ensures GroupsAgree(Run(Claimed(tid), ins))
  {
    RunKeeps(Claimed(tid), ins);
  }
}
