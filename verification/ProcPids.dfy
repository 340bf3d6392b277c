/** Pids are handed out once: a pid that left the table never comes back. */
module ProcPids {
  import opened Prelude
  import opened ProcModel
  import opened ProcFrame
  import opened ProcRuns

  /** Every pid in the table, and every pid a suspended waitpid acts for, was handed out before. */
  ghost predicate PidsKnown(s: State) {
    && INIT < s.nextId
    && (forall p | p in s.procs :: p < s.nextId)
    && (forall id | id in s.states :: s.states[id].AwaitingStatusChange? ==> s.states[id].waiter < s.nextId)
  }

  /**
   No process appears, no new call is suspended except on behalf of a process in the table, and new
   internal ids come from the counter.
   */
  ghost predicate Settled(s: State, t: State) {
    && t.nextId == s.nextId && s.nextInternal <= t.nextInternal
    && t.procs.Keys <= s.procs.Keys
    && (forall id | id in t.states && id.InternalId? :: id in s.states || id.n < t.nextInternal)
    && forall id | id in t.states && t.states[id].AwaitingStatusChange? ::
         || (id in s.states && s.states[id] == t.states[id])
         || t.states[id].waiter in s.procs
  }

  lemma SettledTrans(s: State, t: State, u: State)
    requires Settled(s, t) && Settled(t, u)
    ensures Settled(s, u)
  {}

  lemma WaitedSettled(s: State, t: State, id: VirtualId)
    requires Waited(s, t, id)
    ensures Settled(s, t)
  {
    forall p | p in t.procs ensures p in s.procs { assert WaitedProc(s, t, p, id); }
  }

  lemma WorkOnSettled(s: State, id: VirtualId, order: Order, hit: Option<Pid>)
    requires id in s.states
    ensures Settled(s, WorkOn(s, id, order, hit).0)
  {
    var t := WorkOn(s, id, order, hit).0;
    match s.states[id]
    case Placeholder =>
    case AwaitingThreadsTermination(pid, tag) =>
      if pid in s.procs && s.procs[pid].threads == {} && s.procs[pid].status.Exiting? {
        AfterExitCalm(Put(Forget(s, id), pid, s.procs[pid].(status := Exited(s.procs[pid].status.fate))), pid, order);
        assert t == Complete(s, id, pid, order);
      }
    case AwaitingStatusChange(w, target, flags) =>
      OnWaitpidFrame(s, w, target, flags, id, hit);
      WaitedSettled(s, OnWaitpid(s, w, target, flags, id, hit).0, id);
  }

  /** A call by a pid that is not in the table is answered at once. */
  lemma StrangersAreAnswered(s: State, w: Pid, target: WaitpidTarget, flags: WaitFlags, id: VirtualId, hit: Option<Pid>)
    requires w !in s.procs
    ensures OnWaitpid(s, w, target, flags, id, hit).1.Ready?
  {}

  lemma WaitpidCallSettled(s: State, id: VirtualId, w: Pid, target: WaitpidTarget, flags: WaitFlags, order: Order, hit: Option<Pid>)
    requires id.KernelId?
    ensures Settled(s, WorkOn(s.(states := s.states[id := AwaitingStatusChange(w, target, flags)]), id, order, hit).0)
  {
    var s1 := s.(states := s.states[id := AwaitingStatusChange(w, target, flags)]);
    var (s2, r) := OnWaitpid(s1, w, target, flags, id, hit);
    OnWaitpidFrame(s1, w, target, flags, id, hit);
    WaitedSettled(s1, s2, id);
    if w !in s.procs { StrangersAreAnswered(s1, w, target, flags, id, hit); }
  }

  lemma ExitStartSettled(s: State, id: VirtualId, pid: Pid, raw: nat, tag: bool, order: Order)
    requires id.InternalId? ==> id.n < s.nextInternal
    ensures Settled(s, ExitStart(s, id, pid, raw, tag, order).0)
  {
    if pid in s.procs && !s.procs[pid].status.Ending() && DecodeExit(raw).Some? {
      var s1 := Armed(s, id, pid, DecodeExit(raw).value, tag);
      WorkOnSettled(s1, id, order, None);
      SettledTrans(s, s1, WorkOn(s1, id, order, None).0);
    }
  }

  lemma ThreadDeathSettled(s: State, pid: Pid, tid: Tid, raw: nat, order: Order)
    ensures Settled(s, ThreadDeath(s, pid, tid, raw, order))
  {
    if pid in s.procs {
      ExitStartSettled(Bumped(DropThread(s, pid, tid)), InternalId(s.nextInternal), pid, raw, false, order);
    }
  }

  lemma OnCallSettled(s: State, n: nat, caller: Pid, verb: Verb, order: Order, hit: Option<Pid>)
    ensures Settled(s, OnCall(s, n, caller, verb, order, hit).0)
  {
    var id, s0, t := KernelId(n), Forget(s, KernelId(n)), OnCall(s, n, caller, verb, order, hit).0;
    match verb
    case Exit(raw) =>
      ExitStartSettled(s0, id, caller, raw, true, order);
      SettledTrans(s, s0, t);
    case Waitpid(target, flags) =>
      WaitpidCallSettled(s0, id, caller, target, flags, order, hit);
      SettledTrans(s, s0, t);
    case Kill(victim, sig, willStop) => SendSigCalm(s0, caller, victim, sig, willStop);
    case _ => PlainCall(s, n, caller, verb, order, hit);
  }

  /** Only fork adds a process, and it adds the next unused pid. */
  lemma OnlyForkAdds(s: State, i: Input)
    ensures !i.event.ForkEvent? ==> Settled(s, Next(s, i))
    ensures i.event.ForkEvent? ==> Next(s, i).states == s.states && Next(s, i).nextId == s.nextId + 1
    ensures i.event.ForkEvent? ==> s.procs.Keys <= Next(s, i).procs.Keys <= s.procs.Keys + {s.nextId}
  {
    match i.event
    case ForkEvent(_, _) =>
    case ThreadEvent(_, _) =>
    case Call(n, caller, verb) => OnCallSettled(s, n, caller, verb, i.order, i.hit);
    case CancelEvent(_) =>
    case Death(pid, tid, raw) => ThreadDeathSettled(s, pid, tid, raw, i.order);
    case WakeEvent =>
      if s.awoken != [] && s.awoken[0] in s.states {
        var s1 := s.(awoken := s.awoken[1..]);
        WorkOnSettled(s1, s.awoken[0], i.order, i.hit);
        assert Next(s, i) == WorkOn(s1, s.awoken[0], i.order, i.hit).0;
        SettledTrans(s, s1, Next(s, i));
      }
  }

  lemma NextKeeps(s: State, i: Input)
    requires PidsKnown(s)
    ensures PidsKnown(Next(s, i)) && s.nextId <= Next(s, i).nextId
  {
    OnlyForkAdds(s, i);
  }

  lemma {:induction false} RunKeeps(s: State, ins: seq<Input>)
    requires PidsKnown(s)
    ensures PidsKnown(Run(s, ins)) && s.nextId <= Run(s, ins).nextId
    decreases ins
  {
    if ins != [] {
      NextKeeps(s, ins[0]);
      RunKeeps(Next(s, ins[0]), ins[1..]);
    }
  }

  /** Pids start with init's, and the internal ids in use lie below the counter. */
  ghost predicate Issued(s: State) {
    && INIT < s.nextId
    && (forall p | p in s.procs :: INIT <= p)
    && (forall id | id in s.states && id.InternalId? :: id.n < s.nextInternal)
  }

  lemma {:induction false} RunIssues(s: State, ins: seq<Input>)
    requires Issued(s)
    ensures Issued(Run(s, ins))
    decreases ins
  {
    if ins != [] {
      OnlyForkAdds(s, ins[0]);
      assert ins[0].event.ForkEvent? ==> Next(s, ins[0]).nextInternal == s.nextInternal;
      RunIssues(Next(s, ins[0]), ins[1..]);
    }
  }

  /** A pid that was handed out and is not in the table stays out of it, whatever happens next. */
  lemma {:induction false} PidsAreNeverReused(s: State, ins: seq<Input>, p: Pid)
    requires PidsKnown(s) && p < s.nextId && p !in s.procs
    ensures p !in Run(s, ins).procs
    decreases ins
  {
    if ins != [] {
      OnlyForkAdds(s, ins[0]);
      NextKeeps(s, ins[0]);
      PidsAreNeverReused(Next(s, ins[0]), ins[1..], p);
    }
  }
}
