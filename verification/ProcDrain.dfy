/** The wake-up loop always empties its queues, and a last thread's death then completes the exit. */
module ProcDrain {
  import opened Prelude
  import opened ProcModel
  import opened ProcFrame
  import opened ProcRuns
  import opened ProcExits

  function ExitingSet(s: State): set<Pid> {
    set p | p in s.procs && s.procs[p].status.Exiting?
  }

  lemma CalmExitingSet(s: State, t: State)
    requires Calm(s, t)
    ensures ExitingSet(t) == ExitingSet(s)
  {
    forall p | p in s.procs ensures p in ExitingSet(t) <==> p in ExitingSet(s) { assert CalmProc(s, t, p); }
  }

  lemma CompleteShrinks(s: State, id: VirtualId, pid: Pid, order: Order)
    requires pid in s.procs && s.procs[pid].status.Exiting?
    ensures ExitingSet(Complete(s, id, pid, order)) == ExitingSet(s) - {pid}
  {
    var s1 := Put(Forget(s, id), pid, s.procs[pid].(status := Exited(s.procs[pid].status.fate)));
    assert ExitingSet(s1) == ExitingSet(s) - {pid};
    AfterExitCalm(s1, pid, order);
    CalmExitingSet(s1, Complete(s, id, pid, order));
  }

  /** The request consumed from the queue either completes an exit or queues nothing. */
  ghost predicate Progress(s: State, t: State) {
    || ExitingSet(t) < ExitingSet(s)
    || (ExitingSet(t) <= ExitingSet(s) && t.awoken == s.awoken)
  }

  lemma WaitedProgress(s: State, t: State, id: VirtualId)
    requires Waited(s, t, id)
    ensures Progress(s, t)
  {
    forall p | p in ExitingSet(t) ensures p in ExitingSet(s) { assert WaitedProc(s, t, p, id); }
  }

  lemma WorkOnProgress(s: State, id: VirtualId, order: Order, hit: Option<Pid>)
    requires id in s.states
    ensures Progress(s, WorkOn(s, id, order, hit).0)
  {
    match s.states[id]
    case Placeholder =>
    case AwaitingThreadsTermination(pid, tag) =>
      if pid in s.procs && s.procs[pid].threads == {} && s.procs[pid].status.Exiting? {
        CompleteShrinks(s, id, pid, order);
        assert pid in ExitingSet(s);
      }
    case AwaitingStatusChange(w, target, flags) =>
      OnWaitpidFrame(s, w, target, flags, id, hit);
      WaitedProgress(s, OnWaitpid(s, w, target, flags, id, hit).0, id);
  }

  /** Every turn of the loop decreases (number of exiting processes, queue length). */
  lemma WakeProgress(s: State, order: Order, hit: Option<Pid>)
    requires s.awoken != []
    ensures
      var t := Wake(s, order, hit).0;
      || |ExitingSet(t)| < |ExitingSet(s)|
      || (|ExitingSet(t)| == |ExitingSet(s)| && |t.awoken| < |s.awoken|)
  {
    var s1 := s.(awoken := s.awoken[1..]);
    assert ExitingSet(s1) == ExitingSet(s);
    if s.awoken[0] in s1.states {
      WorkOnProgress(s1, s.awoken[0], order, hit);
      Smaller(ExitingSet(Wake(s, order, hit).0), ExitingSet(s));
    }
  }

  lemma Smaller(a: set<Pid>, b: set<Pid>)
    requires a <= b
    ensures a < b ==> |a| < |b|
    ensures a == b || |a| < |b|
  {
    assert b == a + (b - a);
    assert |b| == |a| + |b - a|;
  }

  /** Runs the loop to the end, for any outside choices; that this is a function is the claim. */
  function Settle(s: State, choices: nat -> (Order, Option<Pid>), k: nat): (t: State)
    ensures t.awoken == []
    decreases |ExitingSet(s)|, |s.awoken|
  {
    if s.awoken == [] then s
    else
      WakeProgress(s, choices(k).0, choices(k).1);
      Settle(Wake(s, choices(k).0, choices(k).1).0, choices, k + 1)
  }

  ghost predicate OnlyWakes(ins: seq<Input>) {
    forall k | 0 <= k < |ins| :: ins[k].event.WakeEvent?
  }

  /** From every state, whatever the choices, finitely many turns empty the queue. */
  lemma {:induction false} DrainTerminates(s: State, choices: nat -> (Order, Option<Pid>), k: nat) returns (ins: seq<Input>)
    ensures OnlyWakes(ins)
    ensures Run(s, ins) == Settle(s, choices, k) && Run(s, ins).awoken == []
    decreases |ExitingSet(s)|, |s.awoken|
  {
    if s.awoken == [] {
      ins := [];
    } else {
      var i := Input(WakeEvent, choices(k).0, choices(k).1);
      WakeProgress(s, i.order, i.hit);
      var rest := DrainTerminates(Next(s, i), choices, k + 1);
      ins := [i] + rest;
      assert ins[1..] == rest;
    }
  }

  // ---------------------------------------------------------------- the last thread's death

  lemma WakeKeepsThreads(s: State, i: Input, p: Pid)
    requires i.event.WakeEvent? && p in Next(s, i).procs
    ensures p in s.procs && Next(s, i).procs[p].threads == s.procs[p].threads
    ensures s.procs[p].status.Ending() ==> Next(s, i).procs[p].status.Ending()
  {
    if s.awoken != [] && s.awoken[0] in s.states {
      var s1, id := s.(awoken := s.awoken[1..]), s.awoken[0];
      match s1.states[id]
      case Placeholder =>
      case AwaitingThreadsTermination(pid, tag) =>
        if pid in s1.procs && s1.procs[pid].threads == {} && s1.procs[pid].status.Exiting? {
          var s2 := Put(Forget(s1, id), pid, s1.procs[pid].(status := Exited(s1.procs[pid].status.fate)));
          AfterExitCalm(s2, pid, i.order);
          assert CalmProc(s2, Next(s, i), p);
        }
      case AwaitingStatusChange(w, target, flags) =>
        OnWaitpidFrame(s1, w, target, flags, id, i.hit);
        assert WaitedProc(s1, OnWaitpid(s1, w, target, flags, id, i.hit).0, p, id);
    }
  }

  lemma {:induction false} WakesKeepThreads(s: State, ins: seq<Input>, p: Pid)
    requires OnlyWakes(ins) && p in Run(s, ins).procs
    ensures p in s.procs && Run(s, ins).procs[p].threads == s.procs[p].threads
    ensures s.procs[p].status.Ending() ==> Run(s, ins).procs[p].status.Ending()
    decreases ins
  {
    if ins != [] {
      WakesKeepThreads(Next(s, ins[0]), ins[1..], p);
      WakeKeepsThreads(s, ins[0], p);
    }
  }

  lemma {:induction false} WakesAreFresh(s: State, ins: seq<Input>)
    requires OnlyWakes(ins)
    ensures Along(s, ins, FreshId)
    decreases ins
  {
    if ins != [] { WakesAreFresh(Next(s, ins[0]), ins[1..]); }
  }

  /**
   The last thread of an exiting process dies, whatever was queued and cancelled before: when the
   loop has run, the process has exited, unless it has even been reaped.
   */
  lemma LastDeathCompletesExit(s: State, p: Pid, tid: Tid, raw: nat, order: Order, choices: nat -> (Order, Option<Pid>))
    requires ExitsTended(s)
    requires p in s.procs && s.procs[p].status.Exiting? && s.procs[p].threads == {tid}
    ensures
      var t := Settle(ThreadDeath(s, p, tid, raw, order), choices, 0);
      p in t.procs ==> t.procs[p].status.Exited?
  {
    var d := ThreadDeath(s, p, tid, raw, order);
    ThreadDeathKeeps(s, p, tid, raw, order);
    var wakes := DrainTerminates(d, choices, 0);
    WakesAreFresh(d, wakes);
    RunKeeps(d, wakes);
    var t := Run(d, wakes);
    if p in t.procs {
      WakesKeepThreads(d, wakes, p);
      assert Tended(t, p);
    }
  }
}
