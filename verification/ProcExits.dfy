/** No exit gets stuck: an exiting process always has somebody who will finish its exit. */
module ProcExits {
  import opened Prelude
  import opened ProcModel
  import opened ProcFrame
  import opened ProcRuns

  /** The suspended request `id` waits for the threads of `p`. */
  ghost predicate Awaits(s: State, id: VirtualId, p: Pid) {
    id in s.states && s.states[id].AwaitingThreadsTermination? && s.states[id].pid == p
  }

  ghost predicate Queued(s: State, p: Pid) {
    exists id :: id in s.awoken && Awaits(s, id, p)
  }

  /** A thread is left, and its death will wake a request that waits for `p`. */
  ghost predicate Guarded(s: State, p: Pid)
    requires p in s.procs
  {
    s.procs[p].threads != {} && exists id :: id in s.procs[p].awaitingThreadsTerm && Awaits(s, id, p)
  }

  ghost predicate Tended(s: State, p: Pid)
    requires p in s.procs
  {
    s.procs[p].status.Exiting? ==> Queued(s, p) || Guarded(s, p)
  }

  ghost predicate InternalIdsUsed(s: State) {
    forall id | id in s.states :: id.InternalId? ==> id.n < s.nextInternal
  }

  /** Every exiting process is tended, except perhaps the one `id` has been taken off the queue for. */
  ghost predicate ExitsTendedBut(s: State, id: VirtualId) {
    && InternalIdsUsed(s)
    && forall p {:trigger Tended(s, p)} | p in s.procs :: Tended(s, p) || Awaits(s, id, p)
  }

  ghost predicate ExitsTended(s: State) {
    && InternalIdsUsed(s)
    && forall p {:trigger Tended(s, p)} | p in s.procs :: Tended(s, p)
  }

  /** `t` has no new exiting process, and loses neither requests, nor wake-ups, nor guards. */
  ghost predicate NothingLost(s: State, t: State, p: Pid)
    requires p in t.procs
  {
    t.procs[p].status.Exiting? ==>
      && p in s.procs && s.procs[p].status.Exiting?
      && (s.procs[p].threads != {} ==> t.procs[p].threads != {})
      && (forall id | id in s.procs[p].awaitingThreadsTerm :: id in t.procs[p].awaitingThreadsTerm)
      && (forall id | Awaits(s, id, p) :: Awaits(t, id, p))
  }

  lemma StillTended(s: State, t: State, p: Pid)
    requires p in s.procs && p in t.procs && NothingLost(s, t, p) && Tended(s, p)
    requires forall id | id in s.awoken :: id in t.awoken
    ensures Tended(t, p)
  {
    if t.procs[p].status.Exiting? {
      if Queued(s, p) {
        var id :| id in s.awoken && Awaits(s, id, p);
        assert id in t.awoken && Awaits(t, id, p);
      } else {
        var id :| id in s.procs[p].awaitingThreadsTerm && Awaits(s, id, p);
        assert id in t.procs[p].awaitingThreadsTerm && Awaits(t, id, p);
      }
    }
  }

  lemma FrameKeeps(s: State, t: State)
    requires ExitsTended(s) && InternalIdsUsed(t)
    requires forall id | id in s.awoken :: id in t.awoken
    requires forall p | p in t.procs :: NothingLost(s, t, p)
    ensures ExitsTended(t)
  {
    forall p | p in t.procs ensures Tended(t, p) {
      assert NothingLost(s, t, p);
      if t.procs[p].status.Exiting? { assert Tended(s, p); StillTended(s, t, p); }
    }
  }

  lemma CalmLosesNothing(s: State, t: State, p: Pid)
    requires Calm(s, t) && p in t.procs
    ensures NothingLost(s, t, p)
  {
    assert CalmProc(s, t, p);
  }

  lemma CalmKeeps(s: State, t: State)
    requires ExitsTended(s) && Calm(s, t)
    ensures ExitsTended(t)
  {
    forall p | p in t.procs ensures NothingLost(s, t, p) { CalmLosesNothing(s, t, p); }
    FrameKeeps(s, t);
  }

  /** Settling the request `id`, whose process is no longer exiting, costs nobody else a guard. */
  lemma SettledKeeps(s: State, id: VirtualId, t: State)
    requires ExitsTendedBut(s, id)
    requires t.procs == s.procs && t.awoken == s.awoken && t.nextInternal == s.nextInternal
    requires forall other | other in s.states && other != id :: other in t.states && t.states[other] == s.states[other]
    requires forall other | other in t.states :: other in s.states
    requires forall p | p in s.procs && Awaits(s, id, p) :: !s.procs[p].status.Exiting?
    ensures ExitsTended(t)
  {
    forall p | p in t.procs ensures Tended(t, p) {
      if t.procs[p].status.Exiting? {
        assert Tended(s, p);
        assert forall other | Awaits(s, other, p) :: Awaits(t, other, p);
        StillTended(s, t, p);
      }
    }
  }

  lemma AwaitThreadsKeeps(s: State, id: VirtualId, pid: Pid)
    requires ExitsTendedBut(s, id) && Awaits(s, id, pid) && pid in s.procs && s.procs[pid].threads != {}
    ensures ExitsTended(AwaitThreads(s, id, pid))
  {
    var t := AwaitThreads(s, id, pid);
    forall p | p in t.procs ensures Tended(t, p) {
      if p == pid {
        assert id in t.procs[p].awaitingThreadsTerm && Awaits(t, id, p);
      } else {
        assert Tended(s, p);
        assert forall other | Awaits(s, other, p) :: Awaits(t, other, p);
        StillTended(s, t, p);
      }
    }
  }

  lemma CompleteKeeps(s: State, id: VirtualId, pid: Pid, order: Order)
    requires ExitsTendedBut(s, id) && Awaits(s, id, pid)
    requires pid in s.procs && s.procs[pid].status.Exiting?
    ensures ExitsTended(Complete(s, id, pid, order))
  {
    var s1 := Put(s, pid, s.procs[pid].(status := Exited(s.procs[pid].status.fate)));
    forall p | p in s1.procs ensures Tended(s1, p) || Awaits(s1, id, p) {
      assert Tended(s, p) || Awaits(s, id, p);
      if Tended(s, p) && p != pid {
        assert forall other | Awaits(s, other, p) :: Awaits(s1, other, p);
        StillTended(s, s1, p);
      }
    }
    var s2 := Put(Forget(s, id), pid, s.procs[pid].(status := Exited(s.procs[pid].status.fate)));
    SettledKeeps(s1, id, s2);
    AfterExitCalm(s2, pid, order);
    CalmKeeps(s2, Complete(s, id, pid, order));
  }

  lemma WaitedKeeps(s: State, t: State, id: VirtualId)
    requires ExitsTended(s) && Waited(s, t, id)
    ensures ExitsTended(t)
  {
    forall p | p in t.procs ensures NothingLost(s, t, p) { assert WaitedProc(s, t, p, id); }
    FrameKeeps(s, t);
  }

  lemma WorkOnKeeps(s: State, id: VirtualId, order: Order, hit: Option<Pid>)
    requires ExitsTendedBut(s, id) && id in s.states
    ensures ExitsTended(WorkOn(s, id, order, hit).0)
  {
    var t := WorkOn(s, id, order, hit).0;
    match s.states[id]
    case Placeholder =>
      SettledKeeps(s, id, s);
    case AwaitingThreadsTermination(pid, tag) =>
      if pid in s.procs && s.procs[pid].threads != {} {
        AwaitThreadsKeeps(s, id, pid);
      } else if pid in s.procs && s.procs[pid].status.Exiting? {
        CompleteKeeps(s, id, pid, order);
      } else {
        SettledKeeps(s, id, t);
      }
    case AwaitingStatusChange(w, target, flags) =>
      SettledKeeps(s, id, s);
      OnWaitpidFrame(s, w, target, flags, id, hit);
      var (s1, r) := OnWaitpid(s, w, target, flags, id, hit);
      WaitedKeeps(s, s1, id);
      if r.Ready? { SettledKeeps(s1, id, t); } else { assert t == s1; }
  }

  /** Whatever `id` was waiting for, a state without it is still fully tended. */
  lemma ExitStartKeeps(s: State, id: VirtualId, pid: Pid, raw: nat, tag: bool, order: Order)
    requires ExitsTended(s) && id !in s.states && (id.InternalId? ==> id.n < s.nextInternal)
    ensures ExitsTended(ExitStart(s, id, pid, raw, tag, order).0)
  {
    if pid in s.procs && !s.procs[pid].status.Ending() && DecodeExit(raw).Some? {
      var s1 := Armed(s, id, pid, DecodeExit(raw).value, tag);
      forall p | p in s1.procs ensures Tended(s1, p) || Awaits(s1, id, p) {
        assert Tended(s, p);
        if p != pid {
          assert forall other | Awaits(s, other, p) :: Awaits(s1, other, p);
          StillTended(s, s1, p);
        }
      }
      WorkOnKeeps(s1, id, order, None);
    }
  }

  lemma WakeAwaitingKeeps(s: State, pid: Pid, tid: Tid)
    requires ExitsTended(s) && pid in s.procs
    ensures ExitsTended(WakeAwaiting(DropThread(s, pid, tid), pid))
  {
    var t := WakeAwaiting(DropThread(s, pid, tid), pid);
    forall p | p in t.procs ensures Tended(t, p) {
      assert Tended(s, p);
      assert forall other | Awaits(s, other, p) :: Awaits(t, other, p);
      if p != pid {
        StillTended(s, t, p);
      } else if t.procs[p].status.Exiting? {
        var id :| Awaits(s, id, p) && (id in s.awoken || id in s.procs[p].awaitingThreadsTerm);
        assert id in t.awoken && Awaits(t, id, p);
      }
    }
  }

  lemma BumpKeeps(s: State)
    requires ExitsTended(s)
    ensures ExitsTended(Bumped(s))
    ensures InternalId(s.nextInternal) !in s.states
  {
    FrameKeeps(s, Bumped(s));
  }

  lemma ThreadDeathKeeps(s: State, pid: Pid, tid: Tid, raw: nat, order: Order)
    requires ExitsTended(s)
    ensures ExitsTended(ThreadDeath(s, pid, tid, raw, order))
  {
    if pid in s.procs && tid in s.procs[pid].threads {
      if s.procs[pid].status.Exiting? {
        WakeAwaitingKeeps(s, pid, tid);
      } else {
        var s1 := DropThread(s, pid, tid);
        FrameKeeps(s, s1);
        if s1.procs[pid].threads == {} {
          BumpKeeps(s1);
          ExitStartKeeps(Bumped(s1), InternalId(s.nextInternal), pid, raw, false, order);
        }
      }
    }
  }

  lemma CancelKeeps(s: State, n: nat)
    requires ExitsTended(s)
    ensures ExitsTended(Cancel(s, n).0)
  {
    var id, t := KernelId(n), Cancel(s, n).0;
    if id in s.states && s.states[id].AwaitingThreadsTermination? {
      var vid := InternalId(s.nextInternal);
      assert vid !in s.states;
      forall p | p in t.procs ensures Tended(t, p) {
        assert Tended(s, p);
        if t.procs[p].status.Exiting? {
          if p == s.states[id].pid {
            assert vid in t.awoken && Awaits(t, vid, p);
          } else {
            assert forall other | Awaits(s, other, p) :: Awaits(t, other, p);
            StillTended(s, t, p);
          }
        }
      }
    } else if id in s.states {
      SettledKeeps(s, id, t);
    }
  }

  lemma OnCallKeeps(s: State, n: nat, caller: Pid, verb: Verb, order: Order, hit: Option<Pid>)
    requires ExitsTended(s)
    requires KernelId(n) in s.states ==> s.states[KernelId(n)].Placeholder?
    ensures ExitsTended(OnCall(s, n, caller, verb, order, hit).0)
  {
    var id := KernelId(n);
    var s0 := Forget(s, id);
    SettledKeeps(s, id, s0);
    var t := OnCall(s, n, caller, verb, order, hit).0;
    match verb
    case Exit(raw) =>
      assert t == ExitStart(s0, id, caller, raw, true, order).0;
      ExitStartKeeps(s0, id, caller, raw, true, order);
    case Waitpid(target, flags) =>
      var s1 := s0.(states := s0.states[id := AwaitingStatusChange(caller, target, flags)]);
      FrameKeeps(s0, s1);
      assert t == WorkOn(s1, id, order, hit).0;
      WorkOnKeeps(s1, id, order, hit);
    case Kill(victim, sig, willStop) =>
      SendSigCalm(s0, caller, victim, sig, willStop);
      assert t == SendSig(s0, caller, victim, sig, willStop).0;
      CalmKeeps(s0, t);
    case _ =>
      PlainCall(s, n, caller, verb, order, hit);
      PlainKeeps(s0, t);
  }

  lemma PlainKeeps(s: State, t: State)
    requires ExitsTended(s) && Plain(s, t)
    ensures ExitsTended(t)
  {
    forall p | p in t.procs ensures NothingLost(s, t, p) { assert PlainProc(s, t, p); }
    FrameKeeps(s, t);
  }

  lemma WakeKeeps(s: State, order: Order, hit: Option<Pid>)
    requires ExitsTended(s) && s.awoken != []
    ensures ExitsTended(Wake(s, order, hit).0)
  {
    var id := s.awoken[0];
    var s1 := s.(awoken := s.awoken[1..]);
    forall p | p in s1.procs ensures Tended(s1, p) || Awaits(s1, id, p) {
      assert Tended(s, p);
      if s.procs[p].status.Exiting? && Queued(s, p) {
        var other :| other in s.awoken && Awaits(s, other, p);
        assert other == id || other in s1.awoken;
        assert Awaits(s1, other, p);
      } else if s.procs[p].status.Exiting? {
        var other :| other in s.procs[p].awaitingThreadsTerm && Awaits(s, other, p);
        assert Awaits(s1, other, p);
      }
    }
    if id in s1.states { WorkOnKeeps(s1, id, order, hit); } else { SettledKeeps(s1, id, s1); }
  }

  lemma NextKeeps(s: State, i: Input)
    requires ExitsTended(s) && FreshId(s, i)
    ensures ExitsTended(Next(s, i))
  {
    match i.event
    case ForkEvent(parent, tid) => FrameKeeps(s, Next(s, i));
    case ThreadEvent(pid, tid) => FrameKeeps(s, Next(s, i));
    case Call(n, caller, verb) => OnCallKeeps(s, n, caller, verb, i.order, i.hit);
    case CancelEvent(n) => CancelKeeps(s, n);
    case Death(pid, tid, raw) => ThreadDeathKeeps(s, pid, tid, raw, i.order);
    case WakeEvent => if s.awoken != [] { WakeKeeps(s, i.order, i.hit); }
  }

  lemma {:induction false} RunKeeps(s: State, ins: seq<Input>)
    requires ExitsTended(s) && Along(s, ins, FreshId)
    ensures ExitsTended(Run(s, ins))
    decreases ins
  {
    if ins != [] {
      NextKeeps(s, ins[0]);
      RunKeeps(Next(s, ins[0]), ins[1..]);
    }
  }

  /**
   Whenever the wake queue is empty, a process that is still exiting has a thread left, and a
   pending request registered with it that the thread's death will wake.  So once a process's
   last thread is gone and the queue has drained, its exit has completed.
   */
  lemma ExitNeverSticks(tid: Tid, ins: seq<Input>, p: Pid)
    requires Along(Claimed(tid), ins, FreshId)
    ensures
      var s := Run(Claimed(tid), ins);
      s.awoken == [] && p in s.procs && s.procs[p].status.Exiting? ==> Guarded(s, p)
  {
    RunKeeps(Claimed(tid), ins);
    var s := Run(Claimed(tid), ins);
    if p in s.procs { assert Tended(s, p); }
  }
}
