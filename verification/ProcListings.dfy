/** Which steps, exactly, leave a suspended waitpid call where nothing will wake it. */
module ProcListings {
  import opened Prelude
  import opened ProcModel
  import opened ProcFrame
  import opened ProcRuns
  import ProcPids

  ghost predicate Suspended(s: State, id: VirtualId) {
    id in s.states && s.states[id].AwaitingStatusChange?
  }

  /** The call is on the wake queue or listed with its waiter, if the waiter is still there. */
  ghost predicate Listed(s: State, id: VirtualId)
    requires Suspended(s, id)
  {
    var w := s.states[id].waiter;
    w in s.procs ==> id in s.awoken || id in s.procs[w].waitpidWaiting
  }

  ghost predicate AllListed(s: State) {
    forall id {:trigger Listed(s, id)} | Suspended(s, id) :: Listed(s, id)
  }

  ghost predicate AllListedBut(s: State, id: VirtualId) {
    forall other {:trigger Listed(s, other)} | Suspended(s, other) && other != id :: Listed(s, other)
  }

  /** News of a kind the caller did not ask for. */
  ghost predicate Unwanted(st: WaitpidStatus, flags: WaitFlags) {
    (st.Continued? && !flags.continued) || (st.StoppedBy? && !flags.untraced)
  }

  /** The call `id` would consume unwanted news, and is neither queued again nor listed already. */
  ghost predicate Swallows(s: State, id: VirtualId, hit: Option<Pid>)
    requires Suspended(s, id)
  {
    var AwaitingStatusChange(w, target, flags) := s.states[id];
    && WaitpidRefusal(s, w, target).None?
    && Pick(s, w, target, hit).Some?
    && Unwanted(Pick(s, w, target, hit).value.1, flags)
    && id !in s.awoken
    && id !in s.procs[w].waitpidWaiting
  }

  ghost predicate SwallowsStep(s: State, i: Input) {
    var look := Examined(s, i.event);
    look.Some? && Swallows(look.value.0, look.value.1, i.hit)
  }

  // ---------------------------------------------------------------- frames

  /** Whoever is listed with `w` stays listed or is woken. */
  ghost predicate Keeps(s: State, t: State, w: Pid)
    requires w in t.procs
  {
    w in s.procs && forall id | id in s.procs[w].waitpidWaiting :: id in t.procs[w].waitpidWaiting || id in t.awoken
  }

  /** Calls are not added, the queue is not shortened, and nobody new is somebody's waiter. */
  ghost predicate Grows(s: State, t: State) {
    && (forall id | Suspended(t, id) :: id in s.states && s.states[id] == t.states[id])
    && (forall id | id in s.awoken :: id in t.awoken)
    && (forall w {:trigger Keeps(s, t, w)} | w in t.procs && w in s.procs :: Keeps(s, t, w))
    && (forall w, id | w in t.procs && w !in s.procs && Suspended(s, id) :: s.states[id].waiter != w)
  }

  lemma StillListed(s: State, t: State, id: VirtualId)
    requires Grows(s, t) && Suspended(t, id) && Suspended(s, id) && Listed(s, id)
    ensures Listed(t, id)
  {
    var w := t.states[id].waiter;
    if w in t.procs && w in s.procs { assert Keeps(s, t, w); }
  }

  lemma GrowsKeeps(s: State, t: State)
    requires AllListed(s) && Grows(s, t)
    ensures AllListed(t)
  {
    forall id | Suspended(t, id) ensures Listed(t, id) {
      assert Suspended(s, id) && Listed(s, id);
      StillListed(s, t, id);
    }
  }

  lemma CalmGrows(s: State, t: State)
    requires Calm(s, t)
    ensures Grows(s, t)
  {
    forall w | w in t.procs ensures Keeps(s, t, w) { assert CalmProc(s, t, w); }
  }

  lemma PlainGrows(s: State, t: State)
    requires Plain(s, t)
    ensures Grows(s, t)
  {
    forall w | w in t.procs ensures Keeps(s, t, w) { assert PlainProc(s, t, w); }
  }

  // ---------------------------------------------------------------- steps

  lemma CompleteListed(s: State, id: VirtualId, pid: Pid, order: Order)
    requires AllListed(s) && pid in s.procs && s.procs[pid].status.Exiting?
    ensures AllListed(Complete(s, id, pid, order))
  {
    var s1 := Put(Forget(s, id), pid, s.procs[pid].(status := Exited(s.procs[pid].status.fate)));
    GrowsKeeps(s, s1);
    AfterExitCalm(s1, pid, order);
    CalmGrows(s1, Complete(s, id, pid, order));
    GrowsKeeps(s1, Complete(s, id, pid, order));
  }

  /** The one call looked at is left unlisted exactly if it swallows news. */
  lemma LookedAtListed(s: State, id: VirtualId, order: Order, hit: Option<Pid>)
    requires Suspended(s, id)
    ensures var t := WorkOn(s, id, order, hit).0; Suspended(t, id) && !Listed(t, id) <==> Swallows(s, id, hit)
  {
    var AwaitingStatusChange(w, target, flags) := s.states[id];
    if WaitpidRefusal(s, w, target).None? {
      var news := Pick(s, w, target, hit);
      if news.None? && !flags.nohang {
        assert Register(s, w, id).procs[w].waitpidWaiting[|s.procs[w].waitpidWaiting|] == id;
      }
    }
  }

  lemma StatusChangeListed(s: State, id: VirtualId, order: Order, hit: Option<Pid>)
    requires AllListedBut(s, id) && Suspended(s, id)
    ensures AllListed(WorkOn(s, id, order, hit).0) <==> !Swallows(s, id, hit)
  {
    var AwaitingStatusChange(w, target, flags) := s.states[id];
    var s1, t := OnWaitpid(s, w, target, flags, id, hit).0, WorkOn(s, id, order, hit).0;
    OnWaitpidFrame(s, w, target, flags, id, hit);
    LookedAtListed(s, id, order, hit);
    forall other | Suspended(t, other) && other != id ensures Listed(t, other) {
      assert Suspended(s, other) && Listed(s, other);
      var v := s.states[other].waiter;
      if v in t.procs { assert WaitedProc(s, s1, v, id); }
    }
  }

  lemma ThreadsListed(s: State, id: VirtualId, order: Order, hit: Option<Pid>)
    requires AllListed(s) && id in s.states && !s.states[id].AwaitingStatusChange?
    ensures AllListed(WorkOn(s, id, order, hit).0)
  {
    if s.states[id].AwaitingThreadsTermination? && s.states[id].pid in s.procs
       && s.procs[s.states[id].pid].threads == {} && s.procs[s.states[id].pid].status.Exiting? {
      CompleteListed(s, id, s.states[id].pid, order);
    } else {
      GrowsKeeps(s, WorkOn(s, id, order, hit).0);
    }
  }

  lemma ExitStartListed(s: State, id: VirtualId, pid: Pid, raw: nat, tag: bool, order: Order)
    requires AllListed(s)
    ensures AllListed(ExitStart(s, id, pid, raw, tag, order).0)
  {
    if pid in s.procs && !s.procs[pid].status.Ending() && DecodeExit(raw).Some? {
      var s1 := Armed(s, id, pid, DecodeExit(raw).value, tag);
      GrowsKeeps(s, s1);
      ThreadsListed(s1, id, order, None);
    }
  }

  lemma ThreadDeathListed(s: State, pid: Pid, tid: Tid, raw: nat, order: Order)
    requires AllListed(s)
    ensures AllListed(ThreadDeath(s, pid, tid, raw, order))
  {
    if pid in s.procs && tid in s.procs[pid].threads {
      var s1 := DropThread(s, pid, tid);
      if s1.procs[pid].status.Exiting? || s1.procs[pid].threads != {} {
        GrowsKeeps(s, ThreadDeath(s, pid, tid, raw, order));
      } else {
        GrowsKeeps(s, Bumped(s1));
        ExitStartListed(Bumped(s1), InternalId(s.nextInternal), pid, raw, false, order);
      }
    }
  }

  lemma OnCallListed(s: State, n: nat, caller: Pid, verb: Verb, order: Order, hit: Option<Pid>)
    requires AllListed(s)
    ensures AllListed(OnCall(s, n, caller, verb, order, hit).0) <==> !SwallowsStep(s, Input(Call(n, caller, verb), order, hit))
  {
    var id, s0 := KernelId(n), Forget(s, KernelId(n));
    GrowsKeeps(s, s0);
    var t := OnCall(s, n, caller, verb, order, hit).0;
    match verb
    case Exit(raw) =>
      assert t == ExitStart(s0, id, caller, raw, true, order).0;
      ExitStartListed(s0, id, caller, raw, true, order);
    case Waitpid(target, flags) =>
      var s1 := s0.(states := s0.states[id := AwaitingStatusChange(caller, target, flags)]);
      forall other | Suspended(s1, other) && other != id ensures Listed(s1, other) { assert Listed(s0, other); }
      assert t == WorkOn(s1, id, order, hit).0;
      StatusChangeListed(s1, id, order, hit);
    case Kill(victim, sig, willStop) =>
      SendSigCalm(s0, caller, victim, sig, willStop);
      assert t == SendSig(s0, caller, victim, sig, willStop).0;
      CalmGrows(s0, t);
      GrowsKeeps(s0, t);
    case _ =>
      PlainCall(s, n, caller, verb, order, hit);
      PlainGrows(s0, t);
      GrowsKeeps(s0, t);
  }

  lemma WakeListed(s: State, order: Order, hit: Option<Pid>)
    requires AllListed(s) && s.awoken != []
    ensures AllListed(Wake(s, order, hit).0) <==> !SwallowsStep(s, Input(WakeEvent, order, hit))
  {
    var id, s1 := s.awoken[0], s.(awoken := s.awoken[1..]);
    forall other | Suspended(s1, other) && other != id ensures Listed(s1, other) { assert Listed(s, other); }
    if Suspended(s1, id) {
      StatusChangeListed(s1, id, order, hit);
    } else {
      assert AllListed(s1);
      if id in s1.states { ThreadsListed(s1, id, order, hit); }
    }
  }

  /**
   Of the steps from a state in which every suspended waitpid call is listed or queued, exactly
   those that swallow news end in a state in which some call is neither.
   */
  lemma ListedIff(s: State, i: Input)
    requires AllListed(s) && ProcPids.PidsKnown(s)
    ensures AllListed(Next(s, i)) <==> !SwallowsStep(s, i)
  {
    match i.event
    case Call(n, caller, verb) => OnCallListed(s, n, caller, verb, i.order, i.hit);
    case Death(pid, tid, raw) => ThreadDeathListed(s, pid, tid, raw, i.order);
    case WakeEvent => if s.awoken != [] { WakeListed(s, i.order, i.hit); }
    case _ => GrowsKeeps(s, Next(s, i));
  }

  // ---------------------------------------------------------------- runs

  ghost predicate SwallowsNothing(s: State, i: Input) { !SwallowsStep(s, i) }

  /** At every moment of the run. */
  ghost predicate AlwaysListed(s: State, ins: seq<Input>)
    decreases ins
  {
    AllListed(s) && (ins != [] ==> AlwaysListed(Next(s, ins[0]), ins[1..]))
  }

  lemma {:induction false} RunListedIff(s: State, ins: seq<Input>)
    requires AllListed(s) && ProcPids.PidsKnown(s)
    ensures AlwaysListed(s, ins) <==> Along(s, ins, SwallowsNothing)
    decreases ins
  {
    if ins != [] {
      ListedIff(s, ins[0]);
      ProcPids.NextKeeps(s, ins[0]);
      if AllListed(Next(s, ins[0])) { RunListedIff(Next(s, ins[0]), ins[1..]); }
    }
  }

  lemma {:induction false} EndsListed(s: State, ins: seq<Input>)
    requires AlwaysListed(s, ins)
    ensures AllListed(Run(s, ins))
    decreases ins
  {
    if ins != [] { EndsListed(Next(s, ins[0]), ins[1..]); }
  }

  /**
   Every suspended waitpid call, whatever its flags, stays listed or queued throughout a run
   exactly if no step of the run swallows news; then, once the queue is empty, each of them is in
   the list of its waiter.
   */
  lemma EveryWaiterListedIff(tid: Tid, ins: seq<Input>)
    ensures AlwaysListed(Claimed(tid), ins) <==> Along(Claimed(tid), ins, SwallowsNothing)
    ensures
      var s := Run(Claimed(tid), ins);
      Along(Claimed(tid), ins, SwallowsNothing) && s.awoken == [] ==>
        forall id | Suspended(s, id) && s.states[id].waiter in s.procs :: id in s.procs[s.states[id].waiter].waitpidWaiting
  {
    RunListedIff(Claimed(tid), ins);
    if AlwaysListed(Claimed(tid), ins) {
      EndsListed(Claimed(tid), ins);
      var s := Run(Claimed(tid), ins);
      assert forall id | Suspended(s, id) :: Listed(s, id);
    }
  }
}
