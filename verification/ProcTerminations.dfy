/** What becomes of the news that a process has terminated: which steps keep it, and who holds it then. */
module ProcTerminations {
  import opened Prelude
  import opened ProcModel
  import opened ProcFrame
  import opened ProcRuns
  import ProcPids
  import opened ProcFates
  import opened ProcTree
  import opened ProcRecords

  /** `w` holds the news that `k` has terminated. */
  ghost predicate Knows(s: State, w: Pid, k: Pid) {
    w in s.procs && k in s.procs[w].waitpid && s.procs[w].waitpid[k].status.Terminated?
  }

  /** An exit call ends the process at once. */
  predicate EndsAtOnce(s: State, pid: Pid, raw: nat) {
    pid in s.procs && s.procs[pid].threads == {} && !s.procs[pid].status.Ending() && DecodeExit(raw).Some?
  }

  /** The process whose exit the step completes. */
  function Completes(s: State, e: Event): Option<Pid> {
    match e
    case Call(_, caller, Exit(raw)) => if EndsAtOnce(s, caller, raw) then Some(caller) else None
    case Death(pid, tid, raw) =>
      if && pid in s.procs && s.procs[pid].threads == {tid} && !s.procs[pid].status.Ending() && DecodeExit(raw).Some?
         && InternalId(s.nextInternal) !in s.states
      then Some(pid) else None
    case WakeEvent =>
      if && s.awoken != [] && s.awoken[0] in s.states && s.states[s.awoken[0]].AwaitingThreadsTermination?
         && var pid := s.states[s.awoken[0]].pid; pid in s.procs && s.procs[pid].threads == {} && s.procs[pid].status.Exiting?
      then Some(s.states[s.awoken[0]].pid) else None
    case _ => None
  }

  /** Who has the records of `w` once the exit of `cur` is complete: those of its children go to init. */
  function Heir(s: State, cur: Option<Pid>, w: Pid): Pid {
    if cur.Some? && IsChild(s, w, cur.value) then INIT else w
  }

  /** A waitpid call of `w` itself takes the news of `k`. */
  ghost predicate Consumes(s: State, i: Input, w: Pid, k: Pid) {
    var look := Examined(s, i.event);
    && look.Some?
    && var AwaitingStatusChange(waiter, target, _) := look.value.0.states[look.value.1];
       && waiter == w
       && WaitpidRefusal(look.value.0, w, target).None?
       && var news := Pick(look.value.0, w, target, i.hit);
          news.Some? && news.value.0 == k
  }

  /** Some child of `cur` still holds a stop or continue record of `k`. */
  ghost predicate StaleNews(s: State, cur: Pid, k: Pid) {
    exists c :: ChildHolds(s, cur, c, k) && !s.procs[c].waitpid[k].status.Terminated?
  }

  /** The step hands init a child that still holds an older record of `k`. */
  ghost predicate Overwrites(s: State, i: Input, w: Pid, k: Pid) {
    w == INIT && Completes(s, i.event).Some? && StaleNews(s, Completes(s, i.event).value, k)
  }

  // ---------------------------------------------------------------- steps that keep the news

  /** `w` holds the same news, or lack of news, about `k`. */
  ghost predicate SameNews(s: State, t: State, w: Pid, k: Pid)
    requires w in s.procs && w in t.procs
  {
    var m, n := s.procs[w].waitpid, t.procs[w].waitpid;
    (k in n <==> k in m) && (k in n ==> n[k] == m[k])
  }

  /** No signal changes the status of `k` any more. */
  ghost predicate Over(s: State, k: Pid) {
    k in s.procs ==> s.procs[k].status.Exited?
  }

  lemma SignalledKeepsNews(s: State, target: Pid, sig: nat, w: Pid, k: Pid)
    requires target in s.procs && w in s.procs && k != target
    ensures SameNews(s, Signalled(s, target, sig), w, k)
    ensures Signalled(s, target, sig).procs.Keys == s.procs.Keys
    ensures k in s.procs ==> Signalled(s, target, sig).procs[k].status == s.procs[k].status
  {}

  lemma SignalKeepsNews(s: State, caller: Pid, target: Pid, sig: nat, willStop: bool, w: Pid, k: Pid)
    requires w in s.procs && Over(s, k)
    ensures SameNews(s, SendSig(s, caller, target, sig, willStop).0, w, k) && Over(SendSig(s, caller, target, sig, willStop).0, k)
  {
    SendSigShape(s, caller, target, sig, willStop);
    if SendSig(s, caller, target, sig, willStop).0 != s { SignalledKeepsNews(s, target, sig, w, k); }
  }

  lemma RouseKeepsNews(s: State, m: Pid, w: Pid, k: Pid)
    requires w in s.procs && Over(s, k)
    ensures SameNews(s, Rouse(s, m), w, k) && Over(Rouse(s, m), k)
  {
    SignalKeepsNews(s, INIT, m, SIGCONT, false, w, k);
    SignalKeepsNews(SendSig(s, INIT, m, SIGCONT, false).0, INIT, m, SIGHUP, false, w, k);
  }

  lemma {:induction false} RouseAllKeepsNews(s: State, members: seq<Pid>, w: Pid, k: Pid)
    requires w in s.procs && Over(s, k)
    ensures SameNews(s, RouseAll(s, members), w, k) && Over(RouseAll(s, members), k)
    decreases members
  {
    if members != [] {
      RouseKeepsNews(s, members[0], w, k);
      RouseAllKeepsNews(Rouse(s, members[0]), members[1..], w, k);
    }
  }

  lemma {:induction false} RouseOrphansKeepsNews(s: State, was: State, cur: Pid, order: seq<Pid>, w: Pid, k: Pid)
    requires w in s.procs && Over(s, k)
    ensures SameNews(s, RouseOrphans(s, was, cur, order), w, k)
    decreases order
  {
    if order != [] {
      var s1 := RouseStep(s, was, cur, order[0]);
      if s1 != s { RouseAllKeepsNews(s, s.groups[order[0]], w, k); }
      RouseOrphansKeepsNews(s1, was, cur, order[1..], w, k);
    }
  }

  // ---------------------------------------------------------------- completing an exit

  /** Handing the children over moves the news with its holder, unless it destroys init's. */
  lemma MovedRecord(s: State, cur: Pid, kids: seq<Pid>, log: map<Pid, Fate>, w: Pid, k: Pid)
    requires NewsUnique(s) && FatesFrozen(s, log) && INIT in s.procs && cur != INIT && Knows(s, w, k)
    requires forall p | IsChild(s, p, cur) :: p in kids
    ensures
      var m := Reparent(s, cur, kids).procs[Heir(s, Some(cur), w)].waitpid;
      k in m && (m[k].status == s.procs[w].waitpid[k].status <==> !(w == INIT && StaleNews(s, cur, k)))
  {
    ReparentOthers(s, cur, kids, w);
    assert RecordsTrue(s, log, w) && RecordTrue(s, log, k, s.procs[w].waitpid[k].status);
    if w == INIT || IsChild(s, w, cur) {
      if c :| ChildHolds(s, cur, c, k) {
        OneChildHolds(s, cur, c, k);
        ReparentRecord(s, cur, kids, c, k);
        assert RecordsTrue(s, log, c) && RecordTrue(s, log, k, s.procs[c].waitpid[k].status);
        assert w != INIT ==> ChildHolds(s, cur, w, k);
      } else {
        assert w != INIT ==> ChildHolds(s, cur, w, k);
        ReparentNoRecord(s, cur, kids, k);
      }
    }
  }

  /** The same parents and the same records. */
  ghost predicate SameFolk(s: State, t: State) {
    && t.procs.Keys == s.procs.Keys
    && forall p | p in s.procs :: t.procs[p].ppid == s.procs[p].ppid && t.procs[p].waitpid == s.procs[p].waitpid
  }

  lemma FolkAgrees(s: State, t: State, cur: Pid, k: Pid)
    requires SameFolk(s, t)
    ensures forall c :: IsChild(t, c, cur) == IsChild(s, c, cur)
    ensures StaleNews(t, cur, k) == StaleNews(s, cur, k)
  {
    forall c ensures ChildHolds(t, cur, c, k) == ChildHolds(s, cur, c, k) {}
  }

  /** Everything needed of a state whose exited process `cur` is about to be followed up. */
  ghost predicate Ready(s: State, cur: Pid, kids: seq<Pid>, log: map<Pid, Fate>) {
    && NewsUnique(s) && ProcPids.PidsKnown(s) && FatesFrozen(s, log) && INIT in s.procs && cur != INIT
    && forall p | IsChild(s, p, cur) :: p in kids
  }

  lemma DrainedReady(s: State, cur: Pid, kids: seq<Pid>, log: map<Pid, Fate>)
    requires Ready(s, cur, kids, log)
    ensures Ready(Drain(s, INIT), cur, kids, log) && SameFolk(s, Drain(s, INIT))
  {
    var was := Drain(s, INIT);
    ProcRecords.SameKeeps(s, was);
    ProcFates.SameKeeps(s, was, log);
    FolkAgrees(s, was, cur, cur);
  }

  lemma KnownIsOver(s: State, log: map<Pid, Fate>, w: Pid, k: Pid)
    requires FatesFrozen(s, log) && Knows(s, w, k)
    ensures Over(s, k)
  {
    assert RecordsTrue(s, log, w) && RecordTrue(s, log, k, s.procs[w].waitpid[k].status);
  }

  lemma DisownRecord(s: State, cur: Pid, order: Order, log: map<Pid, Fate>, w: Pid, k: Pid)
    requires Ready(s, cur, order.kids, log) && Knows(s, w, k)
    ensures Passed(s, Disown(s, cur, order), Heir(s, Some(cur), w), w, k) <==> !(w == INIT && StaleNews(s, cur, k))
  {
    var was := Drain(s, INIT);
    var moved := Reparent(was, cur, order.kids);
    DrainedReady(s, cur, order.kids, log);
    FolkAgrees(s, was, cur, k);
    MovedRecord(was, cur, order.kids, log, w, k);
    KnownIsOver(was, log, w, k);
    if k in was.procs { ReparentOthers(was, cur, order.kids, k); }
    RouseOrphansKeepsNews(moved, was, cur, order.pgrps, Heir(s, Some(cur), w), k);
  }

  /** `heir` holds in `t` what `w` held in `s`. */
  ghost predicate Passed(s: State, t: State, heir: Pid, w: Pid, k: Pid)
    requires Knows(s, w, k)
  {
    heir in t.procs && k in t.procs[heir].waitpid && t.procs[heir].waitpid[k].status == s.procs[w].waitpid[k].status
  }

  lemma ReportPasses(s: State, b: State, parent: Pid, child: Pid, pgid: Pid, st: WaitpidStatus, heir: Pid, w: Pid, k: Pid)
    requires Knows(s, w, k) && parent in b.procs && k != child
    ensures Passed(s, Report(b, parent, child, pgid, st), heir, w, k) <==> Passed(s, b, heir, w, k)
  {}

  lemma AfterExitRecord(s: State, cur: Pid, order: Order, log: map<Pid, Fate>, w: Pid, k: Pid)
    requires Ready(s, cur, order.kids, log) && Knows(s, w, k) && k != cur
    requires cur in s.procs && s.procs[cur].status.Exited? && s.procs[cur].ppid in s.procs
    ensures Passed(s, AfterExit(s, cur, order), Heir(s, Some(cur), w), w, k) <==> !(w == INIT && StaleNews(s, cur, k))
    ensures AfterExit(s, cur, order).procs.Keys == s.procs.Keys
  {
    var q := s.procs[cur];
    DisownRecord(s, cur, order, log, w, k);
    AfterExitShape(s, cur, order);
    ReportPasses(s, Disown(s, cur, order), q.ppid, cur, q.pgid, Terminated(q.status.fate), Heir(s, Some(cur), w), w, k);
  }

  /** Everything the run has kept so far. */
  ghost predicate Sound(s: State, log: map<Pid, Fate>) {
    NewsUnique(s) && ProcPids.PidsKnown(s) && FatesFrozen(s, log) && IsTree(s)
  }

  /** Turning `Exiting` into `Exited` changes no fate, no parent and no record. */
  lemma EndedReady(s: State, id: VirtualId, pid: Pid, kids: seq<Pid>, log: map<Pid, Fate>)
    requires Sound(s, log) && pid in s.procs && s.procs[pid].status.Exiting?
    requires forall p | IsChild(s, p, pid) :: p in kids
    ensures
      var s1 := Put(Forget(s, id), pid, s.procs[pid].(status := Exited(s.procs[pid].status.fate)));
      Ready(s1, pid, kids, log) && SameFolk(s, s1) && s1.procs[pid].ppid in s1.procs
  {
    var s1 := Put(Forget(s, id), pid, s.procs[pid].(status := Exited(s.procs[pid].status.fate)));
    ProcRecords.SameKeeps(s, s1);
    forall p | p in s1.procs ensures FateKnown(s1, log, p) && RecordsTrue(s1, log, p) {
      assert FateKnown(s, log, p) && RecordsTrue(s, log, p);
    }
    FolkAgrees(s, s1, pid, pid);
    assert Parented(s, pid);
  }

  lemma CompleteRecord(s: State, id: VirtualId, pid: Pid, order: Order, log: map<Pid, Fate>, w: Pid, k: Pid)
    requires Sound(s, log) && Knows(s, w, k)
    requires pid in s.procs && s.procs[pid].status.Exiting?
    requires forall p | IsChild(s, p, pid) :: p in order.kids
    ensures Passed(s, Complete(s, id, pid, order), Heir(s, Some(pid), w), w, k) <==> !(w == INIT && StaleNews(s, pid, k))
    ensures Complete(s, id, pid, order).procs.Keys == s.procs.Keys
  {
    var s1 := Put(Forget(s, id), pid, s.procs[pid].(status := Exited(s.procs[pid].status.fate)));
    KnownIsOver(s, log, w, k);
    EndedReady(s, id, pid, order.kids, log);
    FolkAgrees(s, s1, pid, k);
    AfterExitRecord(s1, pid, order, log, w, k);
  }

  // ---------------------------------------------------------------- the other steps

  /** A waitpid call leaves the news where it is, takes it for the caller, or drops its holder. */
  lemma LookRecord(s: State, id: VirtualId, order: Order, hit: Option<Pid>, w: Pid, k: Pid)
    requires Knows(s, w, k) && id in s.states && s.states[id].AwaitingStatusChange?
    ensures
      var t, v, target := WorkOn(s, id, order, hit).0, s.states[id].waiter, s.states[id].target;
      || Passed(s, t, w, w, k)
      || w !in t.procs
      || (&& v == w && WaitpidRefusal(s, w, target).None?
          && Pick(s, w, target, hit).Some? && Pick(s, w, target, hit).value.0 == k)
  {
    var AwaitingStatusChange(v, target, flags) := s.states[id];
    var s1 := OnWaitpid(s, v, target, flags, id, hit).0;
    if WaitpidRefusal(s, v, target).None? && Pick(s, v, target, hit).Some? {
      var c := Pick(s, v, target, hit).value.0;
      assert s1 == TakeRecord(s, v, c) || s1 == Reap(TakeRecord(s, v, c), c);
    } else {
      assert s1 == s || (v in s.procs && s1 == Register(s, v, id));
    }
  }

  /** The books agree, so what the run has kept is still there. */
  lemma SameSound(s: State, t: State, log: map<Pid, Fate>)
    requires Sound(s, log) && SameFolk(s, t) && InitSound(t) && t.nextId == s.nextId
    requires forall p | p in s.procs :: t.procs[p].status == s.procs[p].status
    requires forall id | id in t.states && t.states[id].AwaitingStatusChange? :: id in s.states && t.states[id] == s.states[id]
    ensures Sound(t, log)
  {
    ProcRecords.SameKeeps(s, t);
    ProcFates.SameKeeps(s, t, log);
    FamilyKeeps(s, t);
  }

  /** What happens to the news when the exit of `pid` may be completed. */
  ghost predicate Settles(s: State, t: State, pid: Pid, done: bool, w: Pid, k: Pid)
    requires Knows(s, w, k)
  {
    && t.procs.Keys == s.procs.Keys
    && if done then Passed(s, t, Heir(s, Some(pid), w), w, k) <==> !(w == INIT && StaleNews(s, pid, k))
       else Passed(s, t, w, w, k)
  }

  lemma SettlesFrom(s: State, s1: State, t: State, pid: Pid, done: bool, w: Pid, k: Pid)
    requires SameFolk(s, s1) && Knows(s, w, k) && Knows(s1, w, k) && Settles(s1, t, pid, done, w, k)
    ensures Settles(s, t, pid, done, w, k)
  {
    FolkAgrees(s, s1, pid, k);
  }

  lemma ThreadsRecord(s: State, id: VirtualId, order: Order, hit: Option<Pid>, log: map<Pid, Fate>, w: Pid, k: Pid)
    requires Sound(s, log) && Knows(s, w, k) && id in s.states && s.states[id].AwaitingThreadsTermination?
    requires forall p | IsChild(s, p, s.states[id].pid) :: p in order.kids
    ensures
      var pid := s.states[id].pid;
      Settles(s, WorkOn(s, id, order, hit).0, pid, pid in s.procs && s.procs[pid].threads == {} && s.procs[pid].status.Exiting?, w, k)
  {
    var pid := s.states[id].pid;
    if pid in s.procs && s.procs[pid].threads == {} && s.procs[pid].status.Exiting? {
      CompleteRecord(s, id, pid, order, log, w, k);
    }
  }

  lemma ArmedSound(s: State, id: VirtualId, pid: Pid, fate: Fate, tag: bool, log: map<Pid, Fate>)
    requires Sound(s, log) && pid in s.procs && pid != INIT && !s.procs[pid].status.Ending() && ValidFate(fate)
    ensures Sound(Armed(s, id, pid, fate, tag), log[pid := fate]) && SameFolk(s, Armed(s, id, pid, fate, tag))
  {
    var s1 := Armed(s, id, pid, fate, tag);
    ProcRecords.SameKeeps(s, s1);
    ArmedKeeps(s, id, pid, fate, tag, log);
    FamilyKeeps(s, s1);
  }

  lemma ExitStartRecord(s: State, id: VirtualId, pid: Pid, raw: nat, tag: bool, order: Order, log: map<Pid, Fate>, w: Pid, k: Pid)
    requires Sound(s, log) && Knows(s, w, k) && pid != INIT
    requires forall p | IsChild(s, p, pid) :: p in order.kids
    ensures Settles(s, ExitStart(s, id, pid, raw, tag, order).0, pid, EndsAtOnce(s, pid, raw), w, k)
  {
    if pid in s.procs && !s.procs[pid].status.Ending() && DecodeExit(raw).Some? {
      var s1 := Armed(s, id, pid, DecodeExit(raw).value, tag);
      ArmedSound(s, id, pid, DecodeExit(raw).value, tag, log);
      FolkAgrees(s, s1, pid, k);
      ThreadsRecord(s1, id, order, None, log[pid := DecodeExit(raw).value], w, k);
      assert ExitStart(s, id, pid, raw, tag, order).0 == WorkOn(s1, id, order, None).0;
      SettlesFrom(s, s1, WorkOn(s1, id, order, None).0, pid, EndsAtOnce(s, pid, raw), w, k);
    }
  }

  lemma LastDeathRecord(s: State, pid: Pid, tid: Tid, raw: nat, order: Order, log: map<Pid, Fate>, w: Pid, k: Pid)
    requires Sound(s, log) && Knows(s, w, k) && pid != INIT && pid in s.procs && s.procs[pid].threads == {tid}
    requires forall p | IsChild(s, p, pid) :: p in order.kids
    ensures
      var s1 := Bumped(DropThread(s, pid, tid));
      Settles(s, ExitStart(s1, InternalId(s.nextInternal), pid, raw, false, order).0, pid, EndsAtOnce(s1, pid, raw), w, k)
  {
    var id, s1 := InternalId(s.nextInternal), Bumped(DropThread(s, pid, tid));
    SameSound(s, s1, log);
    FolkAgrees(s, s1, pid, k);
    ExitStartRecord(s1, id, pid, raw, false, order, log, w, k);
    SettlesFrom(s, s1, ExitStart(s1, id, pid, raw, false, order).0, pid, EndsAtOnce(s1, pid, raw), w, k);
  }

  lemma ThreadDeathRecord(s: State, pid: Pid, tid: Tid, raw: nat, order: Order, log: map<Pid, Fate>, w: Pid, k: Pid)
    requires Sound(s, log) && Knows(s, w, k) && (pid == INIT && INIT in s.procs ==> !(s.procs[INIT].threads <= {tid}))
    requires forall p | IsChild(s, p, pid) :: p in order.kids
    ensures Settles(s, ThreadDeath(s, pid, tid, raw, order), pid, Completes(s, Death(pid, tid, raw)).Some?, w, k)
  {
    if pid in s.procs && tid in s.procs[pid].threads {
      var id, s1, t := InternalId(s.nextInternal), Bumped(DropThread(s, pid, tid)), ThreadDeath(s, pid, tid, raw, order);
      assert s1.procs[pid].threads == {} <==> s.procs[pid].threads == {tid};
      if s.procs[pid].status.Exiting? || s.procs[pid].threads != {tid} || id in s.states {
        assert SameFolk(s, t);
      } else {
        LastDeathRecord(s, pid, tid, raw, order, log, w, k);
        assert t == ExitStart(s1, id, pid, raw, false, order).0;
      }
    }
  }

  // ---------------------------------------------------------------- every step

  /** The news is with the heir, or was consumed by its holder, or went with it. */
  ghost predicate Dealt(s: State, i: Input, w: Pid, k: Pid)
    requires Knows(s, w, k)
  {
    || Passed(s, Next(s, i), Heir(s, Completes(s, i.event), w), w, k)
    || Consumes(s, i, w, k)
    || w !in Next(s, i).procs
  }

  /** Nobody's records differ, and no exit is completed. */
  lemma PlainDealt(s: State, i: Input, w: Pid, k: Pid)
    requires Knows(s, w, k) && Completes(s, i.event).None?
    requires w in Next(s, i).procs ==> Next(s, i).procs[w].waitpid == s.procs[w].waitpid
    ensures Dealt(s, i, w, k) && !Overwrites(s, i, w, k)
  {}

  /** The step is the possible completion of an exit, and is decided by `Settles`. */
  lemma SettlesDealt(s: State, i: Input, pid: Pid, w: Pid, k: Pid)
    requires Knows(s, w, k) && Examined(s, i.event).None? && Completes(s, i.event) in {None, Some(pid)}
    requires Settles(s, Next(s, i), pid, Completes(s, i.event).Some?, w, k)
    ensures Dealt(s, i, w, k) <==> !Overwrites(s, i, w, k)
  {}

  lemma LookDealt(s: State, i: Input, w: Pid, k: Pid)
    requires Knows(s, w, k) && Examined(s, i.event).Some?
    ensures Dealt(s, i, w, k) && !Overwrites(s, i, w, k)
  {
    var (s1, id) := Examined(s, i.event).value;
    assert Next(s, i) == WorkOn(s1, id, i.order, i.hit).0;
    LookRecord(s1, id, i.order, i.hit, w, k);
  }

  lemma CallDealt(s: State, i: Input, log: map<Pid, Fate>, w: Pid, k: Pid)
    requires Sound(s, log) && Knows(s, w, k) && i.event.Call? && !i.event.verb.Waitpid? && Orderly(s, i)
    ensures Dealt(s, i, w, k) <==> !Overwrites(s, i, w, k)
  {
    var Call(n, caller, verb) := i.event;
    var s0, t := Forget(s, KernelId(n)), Next(s, i);
    if verb.Exit? {
      SameSound(s, s0, log);
      FolkAgrees(s, s0, caller, k);
      ExitStartRecord(s0, KernelId(n), caller, verb.raw, true, i.order, log, w, k);
      assert t == ExitStart(s0, KernelId(n), caller, verb.raw, true, i.order).0;
      SettlesFrom(s, s0, t, caller, EndsAtOnce(s0, caller, verb.raw), w, k);
      SettlesDealt(s, i, caller, w, k);
    } else if verb.Kill? {
      KnownIsOver(s, log, w, k);
      SignalKeepsNews(s0, caller, verb.victim, verb.sig, verb.willStop, w, k);
      assert t == SendSig(s0, caller, verb.victim, verb.sig, verb.willStop).0;
    } else {
      PlainCall(s, n, caller, verb, i.order, i.hit);
      assert PlainProc(s0, t, w);
      PlainDealt(s, i, w, k);
    }
  }

  lemma WakeDealt(s: State, i: Input, log: map<Pid, Fate>, w: Pid, k: Pid)
    requires Sound(s, log) && Knows(s, w, k) && i.event.WakeEvent? && Examined(s, i.event).None? && Orderly(s, i)
    ensures Dealt(s, i, w, k) <==> !Overwrites(s, i, w, k)
  {
    if s.awoken != [] && s.awoken[0] in s.states && s.states[s.awoken[0]].AwaitingThreadsTermination? {
      var id, s1, t := s.awoken[0], s.(awoken := s.awoken[1..]), Next(s, i);
      var pid := s.states[id].pid;
      SameSound(s, s1, log);
      FolkAgrees(s, s1, pid, k);
      ThreadsRecord(s1, id, i.order, i.hit, log, w, k);
      assert t == WorkOn(s1, id, i.order, i.hit).0;
      SettlesFrom(s, s1, t, pid, Completes(s, i.event).Some?, w, k);
      SettlesDealt(s, i, pid, w, k);
    } else {
      PlainDealt(s, i, w, k);
    }
  }

  lemma NextDealt(s: State, i: Input, log: map<Pid, Fate>, w: Pid, k: Pid)
    requires Sound(s, log) && Knows(s, w, k) && Orderly(s, i)
    ensures Dealt(s, i, w, k) <==> !Overwrites(s, i, w, k)
  {
    match i.event
    case Call(n, caller, verb) => if verb.Waitpid? { LookDealt(s, i, w, k); } else { CallDealt(s, i, log, w, k); }
    case Death(pid, tid, raw) =>
      ThreadDeathRecord(s, pid, tid, raw, i.order, log, w, k);
      SettlesDealt(s, i, pid, w, k);
    case WakeEvent => if Examined(s, i.event).Some? { LookDealt(s, i, w, k); } else { WakeDealt(s, i, log, w, k); }
    case _ => PlainDealt(s, i, w, k);
  }

  // ---------------------------------------------------------------- runs

  lemma RunSound(tid: Tid, ins: seq<Input>) returns (log: map<Pid, Fate>)
    requires Along(Claimed(tid), ins, Orderly)
    ensures Sound(Run(Claimed(tid), ins), log)
  {
    var s0 := Claimed(tid);
    ProcFates.SameKeeps(s0, s0, map[]);
    log := ProcFates.RunKeeps(s0, ins, map[]);
    NewsStaysUnique(s0, ins);
    ParentsFormTree(tid, ins, INIT);
  }

  /**
   In every reachable state, for every step and every holder of the news that `k` has terminated:
   the news stays with its holder, passes to init if the holder is a child of the process whose
   exit the step completes, is consumed by the holder's own waitpid, or goes with the holder,
   unless init holds it and the completed exit hands init a child with an older record of `k`,
   in which case it is lost.
   */
  lemma TerminationRecordSurvivesIff(tid: Tid, ins: seq<Input>, i: Input, w: Pid, k: Pid)
    requires Along(Claimed(tid), ins, Orderly)
    requires var s := Run(Claimed(tid), ins); Orderly(s, i) && Knows(s, w, k)
    ensures var s := Run(Claimed(tid), ins); Dealt(s, i, w, k) <==> !Overwrites(s, i, w, k)
  {
    var log := RunSound(tid, ins);
    NextDealt(Run(Claimed(tid), ins), i, log, w, k);
  }

  /** Who holds the news after further steps, if nobody interferes. */
  function HeirAfter(s: State, ins: seq<Input>, w: Pid): Pid
    decreases ins
  {
    if ins == [] then w else HeirAfter(Next(s, ins[0]), ins[1..], Heir(s, Completes(s, ins[0].event), w))
  }

  /** Along the way no holder consumes the news, leaves the table or has it overwritten. */
  ghost predicate Undisturbed(s: State, ins: seq<Input>, w: Pid, k: Pid)
    decreases ins
  {
    ins == [] ||
    (&& !Consumes(s, ins[0], w, k) && w in Next(s, ins[0]).procs && !Overwrites(s, ins[0], w, k)
     && Undisturbed(Next(s, ins[0]), ins[1..], Heir(s, Completes(s, ins[0].event), w), k))
  }

  lemma {:induction false} NewsStays(s: State, ins: seq<Input>, log: map<Pid, Fate>, w: Pid, k: Pid)
    requires Sound(s, log) && Along(s, ins, Orderly) && Knows(s, w, k) && Undisturbed(s, ins, w, k)
    ensures Passed(s, Run(s, ins), HeirAfter(s, ins, w), w, k)
    decreases ins
  {
    if ins != [] {
      var i, t := ins[0], Next(s, ins[0]);
      NextDealt(s, i, log, w, k);
      var log' := ProcFates.NextKeeps(s, i, log);
      ProcRecords.NextKeeps(s, i);
      ProcPids.NextKeeps(s, i);
      ProcTree.NextKeeps(s, i, log);
      NewsStays(t, ins[1..], log', Heir(s, Completes(s, i.event), w), k);
    }
  }

  /** Over any number of steps, undisturbed news of a termination reaches the last heir unchanged. */
  lemma TerminationNewsStays(tid: Tid, ins: seq<Input>, more: seq<Input>, w: Pid, k: Pid)
    requires Along(Claimed(tid), ins, Orderly)
    requires var s := Run(Claimed(tid), ins); Along(s, more, Orderly) && Knows(s, w, k) && Undisturbed(s, more, w, k)
    ensures var s := Run(Claimed(tid), ins); Passed(s, Run(s, more), HeirAfter(s, more, w), w, k)
  {
    var log := RunSound(tid, ins);
    NewsStays(Run(Claimed(tid), ins), more, log, w, k);
  }
}
