/** How a process ended is fixed once: statuses only advance, and every report tells the same fate. */
module ProcFates {
  import opened Prelude
  import opened ProcModel
  import opened ProcFrame
  import opened ProcRuns
  import ProcPids

  ghost predicate ValidFate(f: Fate) {
    if f.signal.Some? then 1 <= f.signal.value <= 64 && f.status == 0 else f.status < 256
  }

  /** Runnable and stopped alternate; exiting keeps its fate and becomes exited, which is final. */
  ghost predicate Advances(a: ProcessStatus, b: ProcessStatus) {
    match a
    case Exiting(f) => b == Exiting(f) || b == Exited(f)
    case Exited(f) => b == Exited(f)
    case _ => true
  }

  ghost predicate MovedProc(s: State, t: State, p: Pid)
    requires p in s.procs
  {
    if p in t.procs then Advances(s.procs[p].status, t.procs[p].status) else s.procs[p].status.Exited?
  }

  /** Every process advances, and only an exited one leaves the table. */
  ghost predicate Moved(s: State, t: State) {
    forall p {:trigger MovedProc(s, t, p)} | p in s.procs :: MovedProc(s, t, p)
  }

  /** Neither the statuses nor the records differ. */
  ghost predicate SameBooks(s: State, t: State) {
    && t.procs.Keys == s.procs.Keys
    && s.nextId <= t.nextId
    && forall p | p in s.procs :: t.procs[p].status == s.procs[p].status && t.procs[p].waitpid == s.procs[p].waitpid
  }

  lemma SameThenMoved(s: State, t: State, u: State)
    requires SameBooks(s, t) && Moved(t, u)
    ensures Moved(s, u)
  {
    forall p | p in s.procs ensures MovedProc(s, u, p) { assert MovedProc(t, u, p); }
  }

  /** Nothing leaves the table in the second half. */
  lemma MovedOn(s: State, t: State, u: State)
    requires Moved(s, t) && Moved(t, u) && t.procs.Keys == u.procs.Keys
    ensures Moved(s, u)
  {
    forall p | p in s.procs ensures MovedProc(s, u, p) {
      assert MovedProc(s, t, p);
      if p in t.procs { assert MovedProc(t, u, p); }
    }
  }

  // ---------------------------------------------------------------- the log of fates

  /** `log` says how each process that has begun to end is going to have ended. */
  ghost predicate FateKnown(s: State, log: map<Pid, Fate>, p: Pid)
    requires p in s.procs
  {
    if s.procs[p].status.Ending() then p in log && log[p] == s.procs[p].status.fate else p !in log
  }

  ghost predicate RecordTrue(s: State, log: map<Pid, Fate>, k: Pid, st: WaitpidStatus) {
    match st
    case Continued => true
    case StoppedBy(sig) => 1 <= sig <= 64
    case Terminated(f) => k in log && log[k] == f && (k in s.procs ==> s.procs[k].status.Exited?)
  }

  ghost predicate RecordsTrue(s: State, log: map<Pid, Fate>, w: Pid)
    requires w in s.procs
  {
    forall k | k in s.procs[w].waitpid :: RecordTrue(s, log, k, s.procs[w].waitpid[k].status)
  }

  ghost predicate FatesFrozen(s: State, log: map<Pid, Fate>) {
    && (forall p {:trigger FateKnown(s, log, p)} | p in s.procs :: FateKnown(s, log, p))
    && (forall w {:trigger RecordsTrue(s, log, w)} | w in s.procs :: RecordsTrue(s, log, w))
    && (forall p | p in log :: p < s.nextId && ValidFate(log[p]))
  }

  ghost predicate Extends(log: map<Pid, Fate>, log': map<Pid, Fate>) {
    forall p | p in log :: p in log' && log'[p] == log[p]
  }

  /** Across the step the log is only added to, and goes on telling every fate. */
  ghost predicate Kept(s: State, t: State, log: map<Pid, Fate>, log': map<Pid, Fate>) {
    FatesFrozen(t, log') && Extends(log, log') && Moved(s, t)
  }

  lemma SameKept(s: State, t: State, log: map<Pid, Fate>)
    requires FatesFrozen(s, log) && SameBooks(s, t)
    ensures Kept(s, t, log, log)
  {
    SameKeeps(s, t, log);
  }

  lemma SameKeeps(s: State, t: State, log: map<Pid, Fate>)
    requires FatesFrozen(s, log) && SameBooks(s, t)
    ensures FatesFrozen(t, log) && Moved(s, t)
  {
    forall p | p in t.procs ensures FateKnown(t, log, p) && RecordsTrue(t, log, p) {
      assert FateKnown(s, log, p) && RecordsTrue(s, log, p);
    }
  }

  lemma CalmKeeps(s: State, t: State, log: map<Pid, Fate>)
    requires FatesFrozen(s, log) && Calm(s, t)
    ensures FatesFrozen(t, log) && Moved(s, t)
  {
    forall p | p in t.procs ensures FateKnown(t, log, p) { assert CalmProc(s, t, p) && FateKnown(s, log, p); }
    forall w | w in t.procs ensures RecordsTrue(t, log, w) {
      assert CalmProc(s, t, w);
      forall k | k in t.procs[w].waitpid ensures RecordTrue(t, log, k, t.procs[w].waitpid[k].status) {
        CalmRecord(s, t, log, k, t.procs[w].waitpid[k].status);
      }
    }
    forall p | p in s.procs ensures MovedProc(s, t, p) { assert CalmProc(s, t, p); }
  }

  lemma CalmRecord(s: State, t: State, log: map<Pid, Fate>, k: Pid, st: WaitpidStatus)
    requires FatesFrozen(s, log) && Calm(s, t) && RecordCalm(s, t, k, st)
    ensures RecordTrue(t, log, k, st)
  {
    if k in s.procs { assert CalmProc(s, t, k) && FateKnown(s, log, k); }
    if Held(s, k, st) {
      var w :| w in s.procs && k in s.procs[w].waitpid && s.procs[w].waitpid[k].status == st;
      assert RecordsTrue(s, log, w);
    }
  }

  lemma WaitedKeeps(s: State, t: State, id: VirtualId, log: map<Pid, Fate>)
    requires FatesFrozen(s, log) && Waited(s, t, id)
    ensures FatesFrozen(t, log)
  {
    forall p | p in t.procs ensures FateKnown(t, log, p) { assert WaitedProc(s, t, p, id) && FateKnown(s, log, p); }
    forall w | w in t.procs ensures RecordsTrue(t, log, w) {
      assert WaitedProc(s, t, w, id) && RecordsTrue(s, log, w);
      forall k | k in t.procs[w].waitpid ensures RecordTrue(t, log, k, t.procs[w].waitpid[k].status) {
        if k in t.procs { assert WaitedProc(s, t, k, id); }
      }
    }
  }

  /** What waitpid picks is true, and what it reaps has exited. */
  lemma PickTrue(s: State, w: Pid, target: WaitpidTarget, hit: Option<Pid>, log: map<Pid, Fate>)
    requires FatesFrozen(s, log) && WaitpidRefusal(s, w, target).None? && Pick(s, w, target, hit).Some?
    ensures var (k, st) := Pick(s, w, target, hit).value; RecordTrue(s, log, k, st)
  {
    assert RecordsTrue(s, log, w);
    if target.SingleProc? { assert FateKnown(s, log, target.pid); }
  }

  lemma OnWaitpidMoved(s: State, w: Pid, target: WaitpidTarget, flags: WaitFlags, id: VirtualId, hit: Option<Pid>, log: map<Pid, Fate>)
    requires FatesFrozen(s, log)
    ensures Moved(s, OnWaitpid(s, w, target, flags, id, hit).0)
  {
    var t := OnWaitpid(s, w, target, flags, id, hit).0;
    OnWaitpidFrame(s, w, target, flags, id, hit);
    forall p | p in s.procs ensures MovedProc(s, t, p) {
      if p in t.procs {
        assert WaitedProc(s, t, p, id);
      } else {
        assert WaitpidRefusal(s, w, target).None? && Pick(s, w, target, hit).Some? && Pick(s, w, target, hit).value.0 == p;
        PickTrue(s, w, target, hit, log);
      }
    }
  }

  // ---------------------------------------------------------------- steps

  lemma CompleteKeeps(s: State, id: VirtualId, pid: Pid, order: Order, log: map<Pid, Fate>)
    requires FatesFrozen(s, log) && pid in s.procs && s.procs[pid].status.Exiting?
    ensures FatesFrozen(Complete(s, id, pid, order), log) && Moved(s, Complete(s, id, pid, order))
    ensures Complete(s, id, pid, order).procs.Keys == s.procs.Keys
  {
    var s1 := Put(Forget(s, id), pid, s.procs[pid].(status := Exited(s.procs[pid].status.fate)));
    forall p | p in s1.procs ensures FateKnown(s1, log, p) && RecordsTrue(s1, log, p) {
      assert FateKnown(s, log, p) && RecordsTrue(s, log, p);
    }
    assert Moved(s, s1);
    AfterExitCalm(s1, pid, order);
    CalmKeeps(s1, Complete(s, id, pid, order), log);
    MovedOn(s, s1, Complete(s, id, pid, order));
  }

  lemma StatusChangeKeeps(s: State, id: VirtualId, order: Order, hit: Option<Pid>, log: map<Pid, Fate>)
    requires FatesFrozen(s, log) && id in s.states && s.states[id].AwaitingStatusChange?
    ensures FatesFrozen(WorkOn(s, id, order, hit).0, log) && Moved(s, WorkOn(s, id, order, hit).0)
  {
    var AwaitingStatusChange(w, target, flags) := s.states[id];
    var s1 := OnWaitpid(s, w, target, flags, id, hit).0;
    OnWaitpidFrame(s, w, target, flags, id, hit);
    WaitedKeeps(s, s1, id, log);
    OnWaitpidMoved(s, w, target, flags, id, hit, log);
    SameKeeps(s1, Spend(s1, id), log);
    MovedOn(s, s1, Spend(s1, id));
  }

  lemma ThreadsWaitKeeps(s: State, id: VirtualId, order: Order, log: map<Pid, Fate>)
    requires FatesFrozen(s, log) && id in s.states && s.states[id].AwaitingThreadsTermination?
    ensures FatesFrozen(WorkOn(s, id, order, None).0, log) && Moved(s, WorkOn(s, id, order, None).0)
    ensures WorkOn(s, id, order, None).0.procs.Keys == s.procs.Keys
  {
    var t := WorkOn(s, id, order, None).0;
    var pid := s.states[id].pid;
    if pid in s.procs && s.procs[pid].threads == {} && s.procs[pid].status.Exiting? {
      CompleteKeeps(s, id, pid, order, log);
      assert t == Complete(s, id, pid, order);
    } else {
      assert SameBooks(s, t);
      SameKeeps(s, t, log);
    }
  }

  lemma WorkOnKeeps(s: State, id: VirtualId, order: Order, hit: Option<Pid>, log: map<Pid, Fate>)
    requires FatesFrozen(s, log) && id in s.states
    ensures FatesFrozen(WorkOn(s, id, order, hit).0, log) && Moved(s, WorkOn(s, id, order, hit).0)
  {
    match s.states[id]
    case AwaitingStatusChange(_, _, _) => StatusChangeKeeps(s, id, order, hit, log);
    case AwaitingThreadsTermination(_, _) =>
      ThreadsWaitKeeps(s, id, order, log);
      assert WorkOn(s, id, order, hit) == WorkOn(s, id, order, None);
    case Placeholder => SameKeeps(s, s, log);
  }

  /** Entering `Exiting` writes the process's fate into the log. */
  lemma ArmedKeeps(s: State, id: VirtualId, pid: Pid, fate: Fate, tag: bool, log: map<Pid, Fate>)
    requires FatesFrozen(s, log) && ProcPids.PidsKnown(s) && pid in s.procs && !s.procs[pid].status.Ending() && ValidFate(fate)
    ensures FatesFrozen(Armed(s, id, pid, fate, tag), log[pid := fate])
    ensures Moved(s, Armed(s, id, pid, fate, tag)) && Extends(log, log[pid := fate])
  {
    var t, log' := Armed(s, id, pid, fate, tag), log[pid := fate];
    assert FateKnown(s, log, pid);
    forall p | p in t.procs ensures FateKnown(t, log', p) && RecordsTrue(t, log', p) {
      assert FateKnown(s, log, p) && RecordsTrue(s, log, p);
    }
  }

  lemma ExitStartKeeps(s: State, id: VirtualId, pid: Pid, raw: nat, tag: bool, order: Order, log: map<Pid, Fate>) returns (log': map<Pid, Fate>)
    requires FatesFrozen(s, log) && ProcPids.PidsKnown(s)
    ensures Kept(s, ExitStart(s, id, pid, raw, tag, order).0, log, log')
  {
    var t := ExitStart(s, id, pid, raw, tag, order).0;
    if pid in s.procs && !s.procs[pid].status.Ending() && DecodeExit(raw).Some? {
      var s1 := Armed(s, id, pid, DecodeExit(raw).value, tag);
      log' := log[pid := DecodeExit(raw).value];
      ArmedKeeps(s, id, pid, DecodeExit(raw).value, tag, log);
      ThreadsWaitKeeps(s1, id, order, log');
      assert t == WorkOn(s1, id, order, None).0;
      MovedOn(s, s1, t);
    } else {
      log' := log;
      assert t == s;
      SameKeeps(s, s, log);
    }
  }

  lemma LastThreadKeeps(s: State, s2: State, id: VirtualId, pid: Pid, raw: nat, order: Order, log: map<Pid, Fate>) returns (log': map<Pid, Fate>)
    requires FatesFrozen(s, log) && SameBooks(s, s2) && ProcPids.PidsKnown(s2)
    ensures Kept(s, LastThread(s2, id, pid, raw, order), log, log')
  {
    log' := log;
    SameKeeps(s, s2, log);
    if id !in s2.states {
      log' := ExitStartKeeps(s2, id, pid, raw, false, order, log);
      SameThenMoved(s, s2, ExitStart(s2, id, pid, raw, false, order).0);
    }
  }

  /** Losing a thread touches neither statuses nor records. */
  lemma DropThreadBooks(s: State, pid: Pid, tid: Tid)
    requires pid in s.procs
    ensures
      var s1 := DropThread(s, pid, tid);
      SameBooks(s, s1) && SameBooks(s, Bumped(s1)) && SameBooks(s, WakeAwaiting(s1, pid))
  {}

  lemma ThreadDeathKeeps(s: State, pid: Pid, tid: Tid, raw: nat, order: Order, log: map<Pid, Fate>) returns (log': map<Pid, Fate>)
    requires FatesFrozen(s, log) && ProcPids.PidsKnown(s)
    ensures Kept(s, ThreadDeath(s, pid, tid, raw, order), log, log')
  {
    var t := ThreadDeath(s, pid, tid, raw, order);
    log' := log;
    if pid !in s.procs || tid !in s.procs[pid].threads {
      assert t == s;
      SameKept(s, s, log);
    } else {
      var s1 := DropThread(s, pid, tid);
      DropThreadBooks(s, pid, tid);
      if !s1.procs[pid].status.Exiting? && s1.procs[pid].threads == {} {
        log' := LastThreadKeeps(s, Bumped(s1), InternalId(s.nextInternal), pid, raw, order, log);
      } else {
        assert t == s1 || t == WakeAwaiting(s1, pid);
        SameKept(s, t, log);
      }
    }
  }

  lemma PlainKeeps(s: State, t: State, log: map<Pid, Fate>)
    requires FatesFrozen(s, log) && Plain(s, t)
    ensures FatesFrozen(t, log) && Moved(s, t)
  {
    forall p | p in s.procs ensures t.procs[p].status == s.procs[p].status && t.procs[p].waitpid == s.procs[p].waitpid {
      assert PlainProc(s, t, p);
    }
    SameKeeps(s, t, log);
  }

  lemma OnCallKeeps(s: State, n: nat, caller: Pid, verb: Verb, order: Order, hit: Option<Pid>, log: map<Pid, Fate>) returns (log': map<Pid, Fate>)
    requires FatesFrozen(s, log) && ProcPids.PidsKnown(s)
    ensures Kept(s, OnCall(s, n, caller, verb, order, hit).0, log, log')
  {
    var id, s0, t := KernelId(n), Forget(s, KernelId(n)), OnCall(s, n, caller, verb, order, hit).0;
    SameKeeps(s, s0, log);
    log' := log;
    match verb
    case Exit(raw) =>
      log' := ExitStartKeeps(s0, id, caller, raw, true, order, log);
      assert t == ExitStart(s0, id, caller, raw, true, order).0;
      SameThenMoved(s, s0, t);
    case Waitpid(target, flags) =>
      var s1 := s0.(states := s0.states[id := AwaitingStatusChange(caller, target, flags)]);
      SameKeeps(s, s1, log);
      WorkOnKeeps(s1, id, order, hit, log);
      assert t == WorkOn(s1, id, order, hit).0;
      SameThenMoved(s, s1, t);
    case Kill(victim, sig, willStop) =>
      SendSigCalm(s0, caller, victim, sig, willStop);
      assert t == SendSig(s0, caller, victim, sig, willStop).0;
      CalmKeeps(s0, t, log);
      SameThenMoved(s, s0, t);
    case _ =>
      PlainCall(s, n, caller, verb, order, hit);
      PlainKeeps(s0, t, log);
      SameThenMoved(s, s0, t);
  }

  lemma ForkKeeps(s: State, parent: Pid, tid: Tid, log: map<Pid, Fate>)
    requires FatesFrozen(s, log) && ProcPids.PidsKnown(s)
    ensures Kept(s, Fork(s, parent, tid), log, log)
  {
    var t := Fork(s, parent, tid);
    forall p | p in t.procs ensures FateKnown(t, log, p) && RecordsTrue(t, log, p) {
      if p in s.procs { assert FateKnown(s, log, p) && RecordsTrue(s, log, p); }
    }
  }

  lemma WakeKeeps(s: State, order: Order, hit: Option<Pid>, log: map<Pid, Fate>)
    requires FatesFrozen(s, log) && s.awoken != []
    ensures Kept(s, Wake(s, order, hit).0, log, log)
  {
    var s1 := s.(awoken := s.awoken[1..]);
    SameKeeps(s, s1, log);
    if s.awoken[0] in s1.states {
      WorkOnKeeps(s1, s.awoken[0], order, hit, log);
      SameThenMoved(s, s1, WorkOn(s1, s.awoken[0], order, hit).0);
    }
  }

  lemma NewThreadBooks(s: State, pid: Pid, tid: Tid)
    ensures SameBooks(s, NewThread(s, pid, tid))
  {}

  lemma CancelBooks(s: State, n: nat)
    ensures SameBooks(s, Cancel(s, n).0)
  {
    assert Cancel(s, n).0.procs == s.procs;
  }

  lemma NextKeeps(s: State, i: Input, log: map<Pid, Fate>) returns (log': map<Pid, Fate>)
    requires FatesFrozen(s, log) && ProcPids.PidsKnown(s)
    ensures Kept(s, Next(s, i), log, log')
  {
    log' := log;
    match i.event
    case ForkEvent(parent, tid) => ForkKeeps(s, parent, tid, log);
    case ThreadEvent(pid, tid) =>
      NewThreadBooks(s, pid, tid);
      SameKept(s, NewThread(s, pid, tid), log);
    case Call(n, caller, verb) => log' := OnCallKeeps(s, n, caller, verb, i.order, i.hit, log);
    case CancelEvent(n) =>
      CancelBooks(s, n);
      SameKept(s, Cancel(s, n).0, log);
    case Death(pid, tid, raw) => log' := ThreadDeathKeeps(s, pid, tid, raw, i.order, log);
    case WakeEvent =>
      if s.awoken == [] { SameKept(s, s, log); } else { WakeKeeps(s, i.order, i.hit, log); }
  }

  lemma {:induction false} RunKeeps(s: State, ins: seq<Input>, log: map<Pid, Fate>) returns (log': map<Pid, Fate>)
    requires FatesFrozen(s, log) && ProcPids.PidsKnown(s)
    ensures FatesFrozen(Run(s, ins), log') && Extends(log, log') && ProcPids.PidsKnown(Run(s, ins))
    decreases ins
  {
    if ins == [] {
      log' := log;
    } else {
      var log1 := NextKeeps(s, ins[0], log);
      ProcPids.NextKeeps(s, ins[0]);
      log' := RunKeeps(Next(s, ins[0]), ins[1..], log1);
    }
  }

  // ---------------------------------------------------------------- reading the reports

  /** The status word as WIFCONTINUED, WIFSTOPPED, WIFEXITED and WIFSIGNALED read it. */
  function ReadWord(word: nat): WaitpidStatus {
    if word == 0xffff then Continued
    else if word % 256 == 0x7f then StoppedBy(word / 256)
    else if word % 256 == 0 then Terminated(Fate(None, word / 256))
    else Terminated(Fate(Some(word % 256), word / 256))
  }

  lemma WordRoundTrip(s: State, log: map<Pid, Fate>, k: Pid, st: WaitpidStatus)
    requires FatesFrozen(s, log) && RecordTrue(s, log, k, st)
    ensures ReadWord(StatusWord(st)) == st
  {
    if st.Terminated? {
      assert ValidFate(st.fate);
      if st.fate.signal.None? { assert (256 * st.fate.status) % 256 == 0; }
    }
  }

  lemma OnWaitpidReports(s: State, w: Pid, target: WaitpidTarget, flags: WaitFlags, id: VirtualId, hit: Option<Pid>, log: map<Pid, Fate>, k: Pid, word: nat)
    requires FatesFrozen(s, log)
    requires OnWaitpid(s, w, target, flags, id, hit).1 == Ready(Done(k, word)) && k != 0
    ensures RecordTrue(s, log, k, ReadWord(word))
  {
    assert WaitpidRefusal(s, w, target).None? && Pick(s, w, target, hit).Some?;
    var (k', st) := Pick(s, w, target, hit).value;
    PickTrue(s, w, target, hit, log);
    assert k' == k && word == StatusWord(st);
    WordRoundTrip(s, log, k, st);
  }

  lemma StepReports(s: State, i: Input, log: map<Pid, Fate>, k: Pid, word: nat)
    requires FatesFrozen(s, log)
    requires Step(s, i.event, i.order, i.hit).1 == Ready(Done(k, word)) && k != 0
    ensures RecordTrue(s, log, k, ReadWord(word))
  {
    if i.event.WakeEvent? {
      var s1, id := s.(awoken := s.awoken[1..]), s.awoken[0];
      SameKeeps(s, s1, log);
      var AwaitingStatusChange(w, target, flags) := s1.states[id];
      OnWaitpidReports(s1, w, target, flags, id, i.hit, log, k, word);
    } else {
      assert i.event.Call? && i.event.verb.Waitpid?;
      var id, target, flags := KernelId(i.event.n), i.event.verb.target, i.event.verb.flags;
      var s1 := Forget(s, id).(states := Forget(s, id).states[id := AwaitingStatusChange(i.event.caller, target, flags)]);
      SameKeeps(s, s1, log);
      OnWaitpidReports(s1, i.event.caller, target, flags, id, i.hit, log, k, word);
    }
  }

  /** The fate of an ending process, as every later table and every later report must show it. */
  ghost predicate ShowsFate(t: State, p: Pid, f: Fate) {
    && (p in t.procs ==> t.procs[p].status.Ending() && t.procs[p].status.fate == f)
    && (forall w | w in t.procs && p in t.procs[w].waitpid ::
          t.procs[w].waitpid[p].status.Terminated? ==> t.procs[w].waitpid[p].status.fate == f)
  }

  /**
   Once a process is exiting, whatever happens afterwards: the process keeps that fate, every
   termination record of it in any waitpid map carries it, and so does every termination of it
   that any waitpid call reports.
   */
  lemma ExitStatusFrozen(tid: Tid, ins: seq<Input>, p: Pid, more: seq<Input>, i: Input)
    requires p in Run(Claimed(tid), ins).procs && Run(Claimed(tid), ins).procs[p].status.Ending()
    ensures
      var f := Run(Claimed(tid), ins).procs[p].status.fate;
      var t := Run(Run(Claimed(tid), ins), more);
      && ShowsFate(t, p, f)
      && (forall word | Step(t, i.event, i.order, i.hit).1 == Ready(Done(p, word)) && p != 0 ::
            ReadWord(word).Terminated? ==> ReadWord(word).fate == f)
  {
    SameKeeps(Claimed(tid), Claimed(tid), map[]);
    var log := RunKeeps(Claimed(tid), ins, map[]);
    var s := Run(Claimed(tid), ins);
    assert FateKnown(s, log, p);
    var log' := RunKeeps(s, more, log);
    var t := Run(s, more);
    if p in t.procs { assert FateKnown(t, log', p); }
    forall w | w in t.procs && p in t.procs[w].waitpid && t.procs[w].waitpid[p].status.Terminated?
      ensures t.procs[w].waitpid[p].status.fate == s.procs[p].status.fate
    {
      assert RecordsTrue(t, log', w);
      assert RecordTrue(t, log', p, t.procs[w].waitpid[p].status);
    }
    forall word | Step(t, i.event, i.order, i.hit).1 == Ready(Done(p, word)) && p != 0 && ReadWord(word).Terminated?
      ensures ReadWord(word).fate == s.procs[p].status.fate
    {
      StepReports(t, i, log', p, word);
    }
  }

  /** Statuses only advance, and only an exited process leaves the table. */
  lemma StatusOnlyAdvances(tid: Tid, ins: seq<Input>, i: Input, p: Pid)
    requires p in Run(Claimed(tid), ins).procs
    ensures
      var s := Run(Claimed(tid), ins);
      if p in Next(s, i).procs then Advances(s.procs[p].status, Next(s, i).procs[p].status)
      else s.procs[p].status.Exited?
  {
    SameKeeps(Claimed(tid), Claimed(tid), map[]);
    var log := RunKeeps(Claimed(tid), ins, map[]);
    var s := Run(Claimed(tid), ins);
    var log' := NextKeeps(s, i, log);
    assert MovedProc(s, Next(s, i), p);
  }
}
