/** What a process passes to exit, or is killed with, is what waitpid reports of it. */
module ProcExitWords {
  import opened Prelude
  import opened ProcModel
  import opened ProcFrame
  import opened ProcRuns
  import ProcPids
  import opened ProcFates

  /** A 16-bit status in the form exit takes: an exit code below 256, or a signal in the upper byte. */
  ghost predicate Meaningful(raw: nat) { raw < 256 || 256 <= raw < 65 * 256 }

  /** What waitpid's caller must then see: the exit code in the upper byte, or the signal in the lower. */
  function ExitWord(raw: nat): nat { if raw < 256 then 256 * raw else raw / 256 }

  /** `pid` calls exit, or loses its last thread, with this status. */
  ghost predicate EndsBy(s: State, e: Event, pid: Pid, raw: nat) {
    && pid in s.procs && !s.procs[pid].status.Ending()
    && (|| (e.Call? && e.caller == pid && e.verb == Exit(raw))
        || (e.Death? && e.pid == pid && e.raw == raw && s.procs[pid].threads == {e.tid}))
  }

  // ---------------------------------------------------------------- the fate taken on

  /** `pid` is ending in a way that will be reported with this word. */
  ghost predicate EndsWith(t: State, pid: Pid, word: nat) {
    pid in t.procs && t.procs[pid].status.Ending() && StatusWord(Terminated(t.procs[pid].status.fate)) == word
  }

  lemma ExitStartEnds(s: State, id: VirtualId, pid: Pid, raw: nat, tag: bool, order: Order, log: map<Pid, Fate>)
    requires FatesFrozen(s, log) && ProcPids.PidsKnown(s) && pid in s.procs && !s.procs[pid].status.Ending() && Meaningful(raw)
    ensures EndsWith(ExitStart(s, id, pid, raw, tag, order).0, pid, ExitWord(raw))
  {
    var f := DecodeExit(raw).value;
    var s1 := Armed(s, id, pid, f, tag);
    ArmedKeeps(s, id, pid, f, tag, log);
    ThreadsWaitKeeps(s1, id, order, log[pid := f]);
    var t := WorkOn(s1, id, order, None).0;
    assert ExitStart(s, id, pid, raw, tag, order).0 == t;
    assert MovedProc(s1, t, pid);
  }

  lemma DeathEnds(s: State, pid: Pid, tid: Tid, raw: nat, order: Order, log: map<Pid, Fate>)
    requires FatesFrozen(s, log) && ProcPids.PidsKnown(s) && ProcPids.Issued(s)
    requires pid in s.procs && !s.procs[pid].status.Ending() && s.procs[pid].threads == {tid} && Meaningful(raw)
    ensures EndsWith(ThreadDeath(s, pid, tid, raw, order), pid, ExitWord(raw))
  {
    var id, s1 := InternalId(s.nextInternal), Bumped(DropThread(s, pid, tid));
    DropThreadBooks(s, pid, tid);
    SameKeeps(s, s1, log);
    assert {tid} - {tid} == {} && id !in s1.states;
    ExitStartEnds(s1, id, pid, raw, false, order, log);
    assert ThreadDeath(s, pid, tid, raw, order) == ExitStart(s1, id, pid, raw, false, order).0;
  }

  lemma EndBegins(s: State, i: Input, pid: Pid, raw: nat, log: map<Pid, Fate>)
    requires FatesFrozen(s, log) && ProcPids.PidsKnown(s) && ProcPids.Issued(s)
    requires EndsBy(s, i.event, pid, raw) && Meaningful(raw)
    ensures EndsWith(Next(s, i), pid, ExitWord(raw))
  {
    if i.event.Call? {
      var id, s0 := KernelId(i.event.n), Forget(s, KernelId(i.event.n));
      SameKeeps(s, s0, log);
      ExitStartEnds(s0, id, pid, raw, true, i.order, log);
      assert Next(s, i) == ExitStart(s0, id, pid, raw, true, i.order).0;
    } else {
      DeathEnds(s, pid, i.event.tid, raw, i.order, log);
    }
  }

  // ---------------------------------------------------------------- the report

  /** A report other than of a stop or a continue. */
  ghost predicate TellsTermination(word: nat) { word != 0xffff && word % 256 != 0x7f }

  lemma OnWaitpidWord(s: State, w: Pid, target: WaitpidTarget, flags: WaitFlags, id: VirtualId, hit: Option<Pid>, log: map<Pid, Fate>, k: Pid, word: nat)
    requires FatesFrozen(s, log) && OnWaitpid(s, w, target, flags, id, hit).1 == Ready(Done(k, word)) && k != 0 && TellsTermination(word)
    ensures k in log && word == StatusWord(Terminated(log[k]))
  {
    assert WaitpidRefusal(s, w, target).None? && Pick(s, w, target, hit).Some?;
    var (c, st) := Pick(s, w, target, hit).value;
    PickTrue(s, w, target, hit, log);
    assert c == k && word == StatusWord(st);
  }

  /** Only an examined waitpid call answers with a pid. */
  lemma ReportsAreWaits(s: State, i: Input, k: Pid, word: nat)
    requires Step(s, i.event, i.order, i.hit).1 == Ready(Done(k, word)) && k != 0
    ensures Examined(s, i.event).Some?
    ensures
      var (s1, id) := Examined(s, i.event).value;
      var AwaitingStatusChange(w, target, flags) := s1.states[id];
      OnWaitpid(s1, w, target, flags, id, i.hit).1 == Ready(Done(k, word))
  {}

  lemma StepWord(s: State, i: Input, log: map<Pid, Fate>, k: Pid, word: nat)
    requires FatesFrozen(s, log) && Step(s, i.event, i.order, i.hit).1 == Ready(Done(k, word)) && k != 0 && TellsTermination(word)
    ensures k in log && word == StatusWord(Terminated(log[k]))
  {
    ReportsAreWaits(s, i, k, word);
    var (s1, id) := Examined(s, i.event).value;
    var AwaitingStatusChange(w, target, flags) := s1.states[id];
    SameKeeps(s, s1, log);
    OnWaitpidWord(s1, w, target, flags, id, i.hit, log, k, word);
  }

  /**
   A process that calls exit, or loses its last thread, with a meaningful status: whatever happens
   afterwards, every termination of it that any waitpid call reports is reported as that exit code
   or that signal.
   */
  lemma ExitWordReported(tid: Tid, ins: seq<Input>, i: Input, pid: Pid, raw: nat, more: seq<Input>, j: Input, word: nat)
    requires EndsBy(Run(Claimed(tid), ins), i.event, pid, raw) && Meaningful(raw)
    requires var u := Run(Next(Run(Claimed(tid), ins), i), more); Step(u, j.event, j.order, j.hit).1 == Ready(Done(pid, word))
    requires TellsTermination(word)
    ensures word == if raw < 256 then 256 * raw else raw / 256
  {
    var s0 := Claimed(tid);
    var s := Run(s0, ins);
    SameKeeps(s0, s0, map[]);
    var log := RunKeeps(s0, ins, map[]);
    ProcPids.RunIssues(s0, ins);
    EndBegins(s, i, pid, raw, log);
    var log1 := NextKeeps(s, i, log);
    ProcPids.NextKeeps(s, i);
    var t := Next(s, i);
    assert FateKnown(t, log1, pid);
    var log2 := RunKeeps(t, more, log1);
    StepWord(Run(t, more), j, log2, pid, word);
  }

  // ---------------------------------------------------------------- the answers to exit

  /** No status and no member of the table changes. */
  ghost predicate StatusesStay(s: State, t: State) {
    t.procs.Keys == s.procs.Keys && forall p | p in s.procs :: t.procs[p].status == s.procs[p].status
  }

  /** A status that means nothing ends nobody; a caller is told so. */
  lemma MeaninglessIsRefused(s: State, i: Input, pid: Pid, raw: nat)
    requires EndsBy(s, i.event, pid, raw) && !Meaningful(raw)
    ensures StatusesStay(s, Next(s, i))
    ensures i.event.Call? ==> Step(s, i.event, i.order, i.hit).1 == Ready(Failed(EINVAL))
  {}

  /** An exit call is refused for one reason at most, answered if no thread is left, and otherwise left pending. */
  lemma ExitAnswers(s: State, i: Input, pid: Pid, raw: nat)
    requires i.event.Call? && i.event.caller == pid && i.event.verb == Exit(raw)
    ensures
      var r := Step(s, i.event, i.order, i.hit).1;
      && (pid !in s.procs ==> r == Ready(Failed(EBADFD)))
      && (pid in s.procs && s.procs[pid].status.Exiting? ==> r == Ready(Failed(EAGAIN)))
      && (pid in s.procs && s.procs[pid].status.Exited? ==> r == Ready(Failed(ESRCH)))
      && (pid in s.procs && !s.procs[pid].status.Ending() && Meaningful(raw) ==>
            r == if s.procs[pid].threads == {} then Ready(Done(0, 0)) else Pending)
  {}

  /**
   Once awoken, the caller of exit is told of success exactly when no thread is left and the process
   is exiting or has exited, by this request or another; a process that is gone, or that lives on
   without threads, is an error.  A cancelled or internal request is never answered.
   */
  lemma CompletionAnswers(s: State, order: Order, hit: Option<Pid>, pid: Pid, tag: bool)
    requires s.awoken != [] && s.awoken[0] in s.states && s.states[s.awoken[0]] == AwaitingThreadsTermination(pid, tag)
    ensures
      var r := Step(s, WakeEvent, order, hit).1;
      && (r.Ready? <==> tag && (pid in s.procs ==> s.procs[pid].threads == {}))
      && (r.Ready? ==>
            r.response == if pid in s.procs && s.procs[pid].status.Ending() then Done(0, 0) else Failed(ESRCH))
  {}
}
