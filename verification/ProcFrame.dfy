/**
 What the signalling and reparenting machinery leaves alone.  `Calm` is a transitive two-state
 relation; every helper a process's exit runs through is shown to stay inside it once, and the
 invariants are then proved from `Calm` rather than from the helpers' bodies.
 */
module ProcFrame {
  import opened Prelude
  import opened ProcModel

  /** The fields no signal and no reparenting touches. */
  ghost predicate SameIdentity(a: Process, b: Process) {
    && a.threads == b.threads
    && a.pgid == b.pgid
    && a.sid == b.sid
    && a.ruid == b.ruid
    && a.euid == b.euid
    && a.awaitingThreadsTerm == b.awaitingThreadsTerm
    && a.sigPctl == b.sigPctl
  }

  /** Every record's key was there before. */
  ghost predicate NoNewKeys(a: Process, b: Process) {
    forall k | k in b.waitpid :: k in a.waitpid && b.waitpid[k].pgid == a.waitpid[k].pgid
  }

  /** A waiter list is either untouched, with no new record beside it, or fully drained. */
  ghost predicate WaitersKept(a: Process, b: Process, awoken: seq<VirtualId>) {
    && (forall id | id in a.waitpidWaiting :: id in b.waitpidWaiting || id in awoken)
    && (b.waitpidWaiting == [] || (b.waitpidWaiting == a.waitpidWaiting && NoNewKeys(a, b)))
  }

  ghost predicate StatusCalm(a: Process, b: Process) {
    && (b.status == a.status || (!a.status.Ending() && !b.status.Ending()))
    && (b.status.Stopped? ==> a.status.Stopped? || b.sigPctl)
  }

  ghost predicate ParentCalm(s: State, t: State, p: Pid)
    requires p in s.procs && t.procs.Keys == s.procs.Keys
  {
    || t.procs[p].ppid == s.procs[p].ppid
    || (t.procs[p].ppid == INIT && INIT in t.procs && t.procs[INIT].waitpidWaiting == [])
  }

  /** Some waitpid map holds this news about `k`. */
  ghost predicate Held(s: State, k: Pid, st: WaitpidStatus) {
    exists w :: w in s.procs && k in s.procs[w].waitpid && s.procs[w].waitpid[k].status == st
  }

  /** News that may be filed: a real stop signal, or the fate of a process that has exited. */
  ghost predicate Honest(s: State, k: Pid, st: WaitpidStatus) {
    match st
    case Continued => true
    case StoppedBy(sig) => 1 <= sig <= 64
    case Terminated(f) => k in s.procs && s.procs[k].status == Exited(f)
  }

  ghost predicate RecordCalm(s: State, t: State, k: Pid, st: WaitpidStatus) {
    Held(s, k, st) || Honest(t, k, st)
  }

  /** Except for init, news about `k` reaches only the process that held some or is its parent. */
  ghost predicate HolderCalm(s: State, w: Pid, k: Pid)
    requires w in s.procs
  {
    w == INIT || k in s.procs[w].waitpid || (k in s.procs && s.procs[k].ppid == w)
  }

  ghost predicate CalmProc(s: State, t: State, p: Pid)
    requires p in s.procs && t.procs.Keys == s.procs.Keys
  {
    && SameIdentity(s.procs[p], t.procs[p])
    && StatusCalm(s.procs[p], t.procs[p])
    && ParentCalm(s, t, p)
    && WaitersKept(s.procs[p], t.procs[p], t.awoken)
    && (forall k | k in t.procs[p].waitpid :: RecordCalm(s, t, k, t.procs[p].waitpid[k].status))
    && (forall k | k in t.procs[p].waitpid :: HolderCalm(s, p, k))
  }

  ghost predicate Calm(s: State, t: State) {
    && t.procs.Keys == s.procs.Keys
    && t.groups == s.groups
    && t.nextId == s.nextId
    && t.nextInternal == s.nextInternal
    && t.states == s.states
    && s.awoken <= t.awoken
    && forall p {:trigger CalmProc(s, t, p)} | p in s.procs :: CalmProc(s, t, p)
  }

  lemma RecordCalmTrans(s: State, t: State, u: State, k: Pid, st: WaitpidStatus)
    requires Calm(s, t) && Calm(t, u) && RecordCalm(t, u, k, st)
    ensures RecordCalm(s, u, k, st)
  {
    if Held(t, k, st) {
      var w :| w in t.procs && k in t.procs[w].waitpid && t.procs[w].waitpid[k].status == st;
      assert CalmProc(s, t, w);
      assert RecordCalm(s, t, k, st);
      if k in t.procs { assert CalmProc(t, u, k); }
    }
  }

  lemma CalmTrans(s: State, t: State, u: State)
    requires Calm(s, t) && Calm(t, u)
    ensures Calm(s, u)
  {
    forall p | p in s.procs ensures CalmProc(s, u, p) {
      assert CalmProc(s, t, p) && CalmProc(t, u, p);
      if INIT in t.procs { assert CalmProc(t, u, INIT); }
      forall k | k in u.procs[p].waitpid ensures RecordCalm(s, u, k, u.procs[p].waitpid[k].status) {
        RecordCalmTrans(s, t, u, k, u.procs[p].waitpid[k].status);
      }
      forall k | k in u.procs[p].waitpid ensures HolderCalm(s, p, k) {
        assert HolderCalm(t, p, k);
        if k in t.procs { assert CalmProc(s, t, k); }
      }
    }
  }

  /** Records that did not change hands are calm. */
  lemma KeptRecords(s: State, t: State, p: Pid)
    requires p in s.procs && p in t.procs && t.procs[p].waitpid == s.procs[p].waitpid
    ensures forall k | k in t.procs[p].waitpid :: RecordCalm(s, t, k, t.procs[p].waitpid[k].status)
  {}

  lemma CalmRefl(s: State)
    ensures Calm(s, s)
  {
    forall r | r in s.procs ensures CalmProc(s, s, r) { KeptRecords(s, s, r); }
  }

  lemma DrainCalm(s: State, p: Pid)
    requires p in s.procs
    ensures Calm(s, Drain(s, p))
    ensures Drain(s, p).procs[p].waitpidWaiting == []
  {
    forall r | r in s.procs ensures CalmProc(s, Drain(s, p), r) { KeptRecords(s, Drain(s, p), r); }
  }

  lemma ReportCalm(s: State, parent: Pid, child: Pid, pgid: Pid, st: WaitpidStatus)
    requires parent in s.procs && child in s.procs && s.procs[child].ppid == parent && Honest(s, child, st)
    ensures Calm(s, Report(s, parent, child, pgid, st))
  {
    var t := Report(s, parent, child, pgid, st);
    forall r | r in s.procs ensures CalmProc(s, t, r) {
      forall k | k in t.procs[r].waitpid ensures RecordCalm(s, t, k, t.procs[r].waitpid[k].status) {
        if r == parent && k == child { assert Honest(t, k, st); }
      }
    }
  }

  /** SIGCHLD never changes a table. */
  lemma SigchldIsQuiet(s: State, caller: Pid, target: Pid, willStop: bool)
    ensures SendSig(s, caller, target, SIGCHLD, willStop).0 == s
  {}

  /** Hence telling the parent about a stop or a continue is just filing the record. */
  lemma NotifyIsReport(s: State, target: Pid, ppid: Pid, pgid: Pid, st: WaitpidStatus)
    ensures Notify(s, target, ppid, pgid, st).0 == if ppid in s.procs then Report(s, ppid, target, pgid, st) else s
  {
    if ppid in s.procs { SigchldIsQuiet(Report(s, ppid, target, pgid, st), INIT, ppid, false); }
  }

  /** The status a signal that has a table effect gives its target, and the record it files. */
  function SigStatus(sig: nat): ProcessStatus { if sig == SIGCONT then PossiblyRunnable else Stopped(sig) }
  function SigRecord(sig: nat): WaitpidStatus { if sig == SIGCONT then Continued else StoppedBy(sig) }

  /** `SendSig` either does nothing or sets the target's status and files one record. */
  function Signalled(s: State, target: Pid, sig: nat): State
    requires target in s.procs
  {
    var t := s.procs[target];
    var s1 := Put(s, target, t.(status := SigStatus(sig)));
    if t.ppid in s1.procs then Report(s1, t.ppid, target, t.pgid, SigRecord(sig)) else s1
  }

  lemma SendSigShape(s: State, caller: Pid, target: Pid, sig: nat, willStop: bool)
    ensures
      var r := SendSig(s, caller, target, sig, willStop).0;
      || r == s
      || (&& target in s.procs && s.procs[target].sigPctl && !s.procs[target].status.Ending()
          && (sig == SIGCONT || sig == SIGSTOP || ConditionalStop(sig))
          && (sig == SIGCONT ==> s.procs[target].status.Stopped?)
          && r == Signalled(s, target, sig))
  {
    if target in s.procs {
      var t := s.procs[target];
      NotifyIsReport(Put(s, target, t.(status := SigStatus(sig))), target, t.ppid, t.pgid, SigRecord(sig));
    }
  }

  lemma SignalledCalm(s: State, target: Pid, sig: nat)
    requires target in s.procs && s.procs[target].sigPctl && !s.procs[target].status.Ending() && 1 <= sig <= 64
    ensures Calm(s, Signalled(s, target, sig))
  {
    var t := s.procs[target];
    var s1 := Put(s, target, t.(status := SigStatus(sig)));
    forall r | r in s.procs ensures CalmProc(s, s1, r) { KeptRecords(s, s1, r); }
    if t.ppid in s1.procs {
      ReportCalm(s1, t.ppid, target, t.pgid, SigRecord(sig));
      CalmTrans(s, s1, Signalled(s, target, sig));
    }
  }

  lemma SendSigCalm(s: State, caller: Pid, target: Pid, sig: nat, willStop: bool)
    ensures Calm(s, SendSig(s, caller, target, sig, willStop).0)
  {
    SendSigShape(s, caller, target, sig, willStop);
    CalmRefl(s);
    if SendSig(s, caller, target, sig, willStop).0 != s { SignalledCalm(s, target, sig); }
  }

  lemma ReparentOneCalm(s: State, p: Pid)
    requires p in s.procs && INIT in s.procs && p != INIT
    requires s.procs[INIT].waitpidWaiting == []
    ensures Calm(s, ReparentOne(s, p))
    ensures ReparentOne(s, p).procs[INIT].waitpidWaiting == []
  {
    var t := ReparentOne(s, p);
    forall r | r in s.procs ensures CalmProc(s, t, r) {
      forall k | k in t.procs[r].waitpid ensures RecordCalm(s, t, k, t.procs[r].waitpid[k].status) {
        if r == INIT {
          assert (k in s.procs[p].waitpid && t.procs[r].waitpid[k] == s.procs[p].waitpid[k])
              || (k in s.procs[INIT].waitpid && t.procs[r].waitpid[k] == s.procs[INIT].waitpid[k]);
        }
      }
    }
  }

  lemma {:induction false} ReparentCalm(s: State, cur: Pid, order: seq<Pid>)
    requires INIT in s.procs && s.procs[INIT].waitpidWaiting == []
    ensures Calm(s, Reparent(s, cur, order))
    decreases order
  {
    if order == [] {
      CalmRefl(s);
    } else {
      var s1 := if IsChild(s, order[0], cur) then ReparentOne(s, order[0]) else s;
      if IsChild(s, order[0], cur) { ReparentOneCalm(s, order[0]); } else { CalmRefl(s); }
      ReparentCalm(s1, cur, order[1..]);
      CalmTrans(s, s1, Reparent(s1, cur, order[1..]));
    }
  }

  lemma RouseCalm(s: State, m: Pid)
    ensures Calm(s, Rouse(s, m))
  {
    CalmRefl(s);
    if m in s.procs && s.procs[m].status.Stopped? {
      var s1 := SendSig(s, INIT, m, SIGCONT, false).0;
      SendSigCalm(s, INIT, m, SIGCONT, false);
      SendSigCalm(s1, INIT, m, SIGHUP, false);
      CalmTrans(s, s1, Rouse(s, m));
    }
  }

  lemma {:induction false} RouseAllCalm(s: State, members: seq<Pid>)
    ensures Calm(s, RouseAll(s, members))
    decreases members
  {
    if members == [] {
      CalmRefl(s);
    } else {
      var s1 := Rouse(s, members[0]);
      RouseCalm(s, members[0]);
      RouseAllCalm(s1, members[1..]);
      CalmTrans(s, s1, RouseAll(s, members));
    }
  }

  /** One round of the loop over the sampled groups. */
  function RouseStep(s: State, was: State, cur: Pid, g: Pid): State {
    if Affected(was, cur, g) && !IsOrphaned(was, g) && IsOrphaned(s, g) then RouseAll(s, s.groups[g]) else s
  }

  lemma {:induction false} RouseOrphansCalm(s: State, was: State, cur: Pid, order: seq<Pid>)
    ensures Calm(s, RouseOrphans(s, was, cur, order))
    decreases order
  {
    CalmRefl(s);
    if order != [] {
      var s1 := RouseStep(s, was, cur, order[0]);
      if s1 != s { RouseAllCalm(s, s.groups[order[0]]); }
      RouseOrphansCalm(s1, was, cur, order[1..]);
      CalmTrans(s, s1, RouseOrphans(s, was, cur, order));
    }
  }

  lemma DisownCalm(s: State, cur: Pid, order: Order)
    requires INIT in s.procs
    ensures Calm(s, Disown(s, cur, order))
  {
    var was := Drain(s, INIT);
    var moved := Reparent(was, cur, order.kids);
    DrainCalm(s, INIT);
    ReparentCalm(was, cur, order.kids);
    RouseOrphansCalm(moved, was, cur, order.pgrps);
    CalmTrans(s, was, moved);
    CalmTrans(s, moved, Disown(s, cur, order));
  }

  /** The state in which the exiting process's termination record is about to be filed. */
  function BeforeReport(s: State, cur: Pid, order: Order): (r: State)
    requires cur in s.procs
    ensures r.procs.Keys == s.procs.Keys
  {
    if INIT in s.procs then Disown(s, cur, order) else s
  }

  lemma AfterExitShape(s: State, cur: Pid, order: Order)
    requires cur in s.procs && s.procs[cur].status.Exited?
    ensures
      var q := s.procs[cur];
      AfterExit(s, cur, order) ==
        if q.ppid !in s.procs then s
        else Report(BeforeReport(s, cur, order), q.ppid, cur, q.pgid, Terminated(q.status.fate))
    ensures Calm(s, BeforeReport(s, cur, order))
  {
    SigchldIsQuiet(s, cur, s.procs[cur].ppid, false);
    if INIT in s.procs { DisownCalm(s, cur, order); } else { CalmRefl(s); }
  }

  /** The parent known when the exit began hears of it, whatever moved in between. */
  lemma FinalReportCalm(s: State, b: State, cur: Pid)
    requires Calm(s, b) && cur in s.procs && s.procs[cur].status.Exited? && s.procs[cur].ppid in s.procs
    ensures var q := s.procs[cur]; Calm(s, Report(b, q.ppid, cur, q.pgid, Terminated(q.status.fate)))
  {
    var q := s.procs[cur];
    var t := Report(b, q.ppid, cur, q.pgid, Terminated(q.status.fate));
    assert CalmProc(s, b, cur);
    forall p | p in s.procs ensures CalmProc(s, t, p) {
      assert CalmProc(s, b, p);
      forall k | k in t.procs[p].waitpid ensures RecordCalm(s, t, k, t.procs[p].waitpid[k].status) && HolderCalm(s, p, k) {
        if k in b.procs[p].waitpid { assert RecordCalm(s, b, k, b.procs[p].waitpid[k].status) && HolderCalm(s, p, k); }
      }
    }
  }

  lemma AfterExitCalm(s: State, cur: Pid, order: Order)
    requires cur in s.procs && s.procs[cur].status.Exited?
    ensures Calm(s, AfterExit(s, cur, order))
  {
    AfterExitShape(s, cur, order);
    var q := s.procs[cur];
    if q.ppid !in s.procs {
      CalmRefl(s);
    } else {
      FinalReportCalm(s, BeforeReport(s, cur, order), cur);
    }
  }

  // ---------------------------------------------------------------- waitpid

  /** A process across a waitpid call: only its records and its waiter list may differ. */
  ghost predicate WaitedProc(s: State, t: State, p: Pid, id: VirtualId)
    requires p in t.procs
  {
    && p in s.procs
    && var a, b := s.procs[p], t.procs[p];
       && b.(waitpid := a.waitpid, waitpidWaiting := a.waitpidWaiting) == a
       && (forall k | k in b.waitpid :: k in a.waitpid && b.waitpid[k] == a.waitpid[k])
       && (b.waitpidWaiting == a.waitpidWaiting || b.waitpidWaiting == a.waitpidWaiting + [id])
  }

  ghost predicate Waited(s: State, t: State, id: VirtualId) {
    && t.nextId == s.nextId && t.nextInternal == s.nextInternal && t.states == s.states && t.awoken == s.awoken
    && forall p {:trigger WaitedProc(s, t, p, id)} | p in t.procs :: WaitedProc(s, t, p, id)
  }

  lemma ReapWaited(s: State, t: State, pid: Pid, id: VirtualId)
    requires Waited(s, t, id)
    ensures Waited(s, Reap(t, pid), id)
  {
    forall p | p in Reap(t, pid).procs ensures WaitedProc(s, Reap(t, pid), p, id) { assert WaitedProc(s, t, p, id); }
  }

  lemma OnWaitpidFrame(s: State, w: Pid, target: WaitpidTarget, flags: WaitFlags, id: VirtualId, hit: Option<Pid>)
    ensures Waited(s, OnWaitpid(s, w, target, flags, id, hit).0, id)
  {
    var r := OnWaitpid(s, w, target, flags, id, hit).0;
    if WaitpidRefusal(s, w, target).Some? {
      assert r == s;
    } else {
      var news := Pick(s, w, target, hit);
      if news.None? {
        assert r == s || r == Register(s, w, id);
      } else {
        var s1 := TakeRecord(s, w, news.value.0);
        assert Waited(s, s1, id);
        assert r == s1 || r == Reap(s1, news.value.0);
        ReapWaited(s, s1, news.value.0, id);
      }
    }
  }

  // ---------------------------------------------------------------- the calls that are answered at once

  /** Only ids, the signal page and the waiter list, which is kept or drained, may differ. */
  ghost predicate PlainProc(s: State, t: State, p: Pid)
    requires p in s.procs && p in t.procs
  {
    var a, b := s.procs[p], t.procs[p];
    && b.threads == a.threads && b.ppid == a.ppid && b.status == a.status && b.waitpid == a.waitpid
    && b.awaitingThreadsTerm == a.awaitingThreadsTerm
    && (a.sigPctl ==> b.sigPctl)
    && (b.waitpidWaiting == a.waitpidWaiting || (b.waitpidWaiting == [] && forall id | id in a.waitpidWaiting :: id in t.awoken))
  }

  ghost predicate Plain(s: State, t: State) {
    && t.procs.Keys == s.procs.Keys
    && t.nextId == s.nextId && t.nextInternal == s.nextInternal && t.states == s.states
    && s.awoken <= t.awoken
    && forall p {:trigger PlainProc(s, t, p)} | p in s.procs :: PlainProc(s, t, p)
  }

  lemma SetPgidPlain(s: State, pid: Pid, newPgid: Pid)
    requires pid in s.procs
    ensures Plain(s, SetPgid(s, pid, newPgid).0)
    ensures SetPgid(s, pid, newPgid).0.procs[pid].euid == s.procs[pid].euid
    ensures forall p | p in s.procs :: SetPgid(s, pid, newPgid).0.procs[p].euid == s.procs[p].euid
  {}

  lemma SetpgidPlain(s: State, caller: Pid, target: Pid, newPgid: Pid)
    ensures Plain(s, Setpgid(s, caller, target, newPgid).0)
    ensures forall p | p in s.procs :: Setpgid(s, caller, target, newPgid).0.procs[p].euid == s.procs[p].euid
  {
    var t := Setpgid(s, caller, target, newPgid).0;
    if t != s {
      SetPgidPlain(s, target, newPgid);
      assert t == SetPgid(s, target, newPgid).0;
    }
  }

  lemma SetsidPlain(s: State, caller: Pid)
    ensures Plain(s, Setsid(s, caller).0)
    ensures forall p | p in s.procs :: Setsid(s, caller).0.procs[p].euid == s.procs[p].euid
  {
    var t := Setsid(s, caller).0;
    if t != s {
      SetPgidPlain(s, caller, caller);
      var s1 := SetPgid(s, caller, caller).0;
      assert t == s1 || t == Put(s1, caller, s1.procs[caller].(sid := caller));
      forall p | p in s.procs ensures PlainProc(s, t, p) { assert PlainProc(s, s1, p); }
    }
  }

  ghost predicate PlainVerb(verb: Verb) { !verb.Exit? && !verb.Waitpid? && !verb.Kill? }

  lemma PlainCall(s: State, n: nat, caller: Pid, verb: Verb, order: Order, hit: Option<Pid>)
    requires PlainVerb(verb)
    ensures Plain(Forget(s, KernelId(n)), OnCall(s, n, caller, verb, order, hit).0)
    ensures INIT in s.procs && !(verb.SetResugid? && caller == INIT) ==>
              OnCall(s, n, caller, verb, order, hit).0.procs[INIT].euid == s.procs[INIT].euid
  {
    var s0 := Forget(s, KernelId(n));
    match verb
    case SetpgidCall(member, newPgid) => SetpgidPlain(s0, caller, member, newPgid);
    case SetsidCall => SetsidPlain(s0, caller);
    case _ =>
  }
}
