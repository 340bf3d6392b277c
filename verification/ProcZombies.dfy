/** Whether an exited process is on record with its present parent, so that a wait for any child finds it. */
module ProcZombies {
  import opened Prelude
  import opened ProcModel
  import opened ProcFrame
  import opened ProcRuns
  import ProcPids
  import opened ProcFates
  import opened ProcTree
  import opened ProcRecords
  import opened ProcTerminations

  /** The termination of `k` is on record with its parent. */
  ghost predicate Recorded(s: State, k: Pid)
    requires k in s.procs
  {
    Knows(s, s.procs[k].ppid, k)
  }

  ghost predicate ZombieKnown(s: State) {
    forall k {:trigger Recorded(s, k)} | k in s.procs && s.procs[k].status.Exited? :: Recorded(s, k)
  }

  ghost predicate Once(s: State, w: Pid, k: Pid) {
    w != INIT && Knows(s, w, k) ==> !Knows(s, INIT, k)
  }

  /** Init does not know of a termination that somebody else knows of. */
  ghost predicate KnownOnce(s: State) {
    forall w, k {:trigger Once(s, w, k)} :: Once(s, w, k)
  }

  ghost predicate ExitedChild(s: State, k: Pid, p: Pid) {
    IsChild(s, k, p) && s.procs[k].status.Exited?
  }

  /**
   Completing the exit of `cur` loses track of an exited process: a child of `cur`, whose record
   stays behind; a grandchild, whose record goes to init without it; or a child of init's, whose
   record is overwritten.
   */
  ghost predicate ForgetsKin(s: State, cur: Pid) {
    || (exists k :: ExitedChild(s, k, cur))
    || (exists p, k :: IsChild(s, p, cur) && ExitedChild(s, k, p))
    || (exists k :: ExitedChild(s, k, INIT) && StaleNews(s, cur, k))
  }

  /** A waitpid call takes the termination of a process that still has a thread and stays in the table. */
  ghost predicate LeavesBody(s: State, id: VirtualId, hit: Option<Pid>)
    requires id in s.states && s.states[id].AwaitingStatusChange?
  {
    var AwaitingStatusChange(w, target, _) := s.states[id];
    && WaitpidRefusal(s, w, target).None?
    && var news := Pick(s, w, target, hit);
       && news.Some? && news.value.1.Terminated?
       && news.value.0 in s.procs && s.procs[news.value.0].threads != {}
  }

  ghost predicate Forgets(s: State, i: Input) {
    var cur, look := Completes(s, i.event), Examined(s, i.event);
    || (cur.Some? && ForgetsKin(s, cur.value))
    || (look.Some? && LeavesBody(look.value.0, look.value.1, i.hit))
  }

  // ---------------------------------------------------------------- completing an exit

  /** Init knows of `k` once the children of `cur` have been handed over. */
  ghost predicate InitLearns(s: State, cur: Pid, k: Pid) {
    || (exists c :: ChildHolds(s, cur, c, k) && s.procs[c].waitpid[k].status.Terminated?)
    || (Knows(s, INIT, k) && forall c :: !ChildHolds(s, cur, c, k))
  }

  /** `w` knows of `k` then: the children's records have gone to init. */
  ghost predicate Learns(s: State, cur: Pid, w: Pid, k: Pid) {
    if w == INIT then InitLearns(s, cur, k) else Knows(s, w, k) && !IsChild(s, w, cur)
  }

  lemma MovedKnows(s: State, cur: Pid, kids: seq<Pid>, w: Pid, k: Pid)
    requires NewsUnique(s) && INIT in s.procs && cur != INIT && w in s.procs
    requires forall p | IsChild(s, p, cur) :: p in kids
    ensures Knows(Reparent(s, cur, kids), w, k) <==> Learns(s, cur, w, k)
  {
    ReparentOthers(s, cur, kids, w);
    if w == INIT {
      if c :| ChildHolds(s, cur, c, k) {
        OneChildHolds(s, cur, c, k);
        ReparentRecord(s, cur, kids, c, k);
      } else {
        ReparentNoRecord(s, cur, kids, k);
      }
    }
  }

  lemma FolkLearns(s: State, t: State, cur: Pid, w: Pid, k: Pid)
    requires SameFolk(s, t)
    ensures Learns(t, cur, w, k) <==> Learns(s, cur, w, k)
  {
    forall c ensures ChildHolds(t, cur, c, k) == ChildHolds(s, cur, c, k) {}
  }

  lemma DisownKnows(s: State, cur: Pid, order: Order, log: map<Pid, Fate>, w: Pid, k: Pid)
    requires ProcTerminations.Ready(s, cur, order.kids, log) && Over(s, k) && w in s.procs
    ensures Knows(Disown(s, cur, order), w, k) <==> Learns(s, cur, w, k)
  {
    var was := Drain(s, INIT);
    var moved := Reparent(was, cur, order.kids);
    DrainedReady(s, cur, order.kids, log);
    FolkLearns(s, was, cur, w, k);
    MovedKnows(was, cur, order.kids, w, k);
    if k in was.procs { ReparentOthers(was, cur, order.kids, k); }
    RouseOrphansKeepsNews(moved, was, cur, order.pgrps, w, k);
  }

  lemma ReportKnows(b: State, parent: Pid, child: Pid, pgid: Pid, f: Fate, w: Pid, k: Pid)
    requires parent in b.procs
    ensures Knows(Report(b, parent, child, pgid, Terminated(f)), w, k) <==> Knows(b, w, k) || (w == parent && k == child)
  {}

  lemma AfterExitKnows(s: State, cur: Pid, order: Order, log: map<Pid, Fate>, w: Pid, k: Pid)
    requires ProcTerminations.Ready(s, cur, order.kids, log) && Over(s, k) && w in s.procs
    requires cur in s.procs && s.procs[cur].status.Exited? && s.procs[cur].ppid in s.procs
    ensures Knows(AfterExit(s, cur, order), w, k) <==> Learns(s, cur, w, k) || (w == s.procs[cur].ppid && k == cur)
  {
    var q := s.procs[cur];
    DisownKnows(s, cur, order, log, w, k);
    AfterExitShape(s, cur, order);
    ReportKnows(Disown(s, cur, order), q.ppid, cur, q.pgid, q.status.fate, w, k);
  }

  /** Parents and statuses across the follow-up of an exit. */
  lemma AfterExitFolk(s: State, cur: Pid, order: Order, log: map<Pid, Fate>, p: Pid)
    requires ProcTerminations.Ready(s, cur, order.kids, log) && p in s.procs
    requires cur in s.procs && s.procs[cur].status.Exited? && s.procs[cur].ppid in s.procs
    ensures
      var t := AfterExit(s, cur, order);
      && t.procs.Keys == s.procs.Keys && (t.procs[p].status.Exited? <==> s.procs[p].status.Exited?)
      && (p != INIT ==> t.procs[p].ppid == if IsChild(s, p, cur) then INIT else s.procs[p].ppid)
  {
    AfterExitShape(s, cur, order);
    AfterExitCalm(s, cur, order);
    assert CalmProc(s, AfterExit(s, cur, order), p);
    if p != INIT { DisownMovesAll(s, cur, order, p); }
  }

  /** The state in which the exit of `pid` is about to be followed up. */
  function Ended(s: State, id: VirtualId, pid: Pid): State
    requires pid in s.procs && s.procs[pid].status.Exiting?
  {
    Put(Forget(s, id), pid, s.procs[pid].(status := Exited(s.procs[pid].status.fate)))
  }

  /** What a completed exit does to parents, statuses and knowledge. */
  ghost predicate Passes(s: State, t: State, pid: Pid)
    requires pid in s.procs
  {
    && t.procs.Keys == s.procs.Keys
    && (forall p {:trigger t.procs[p]} | p in s.procs :: t.procs[p].status.Exited? <==> p == pid || s.procs[p].status.Exited?)
    && (forall p {:trigger t.procs[p]} | p in s.procs && p != INIT ::
          t.procs[p].ppid == if IsChild(s, p, pid) then INIT else s.procs[p].ppid)
    && (forall w, k {:trigger Knows(t, w, k)} | w in s.procs && (k == pid || Over(s, k)) ::
          Knows(t, w, k) <==> Learns(s, pid, w, k) || (w == s.procs[pid].ppid && k == pid))
    && (forall w, k {:trigger Knows(t, w, k)} | Knows(t, w, k) :: k == pid || Over(s, k))
  }

  lemma CompleteFolk(s: State, id: VirtualId, pid: Pid, order: Order, log: map<Pid, Fate>, p: Pid)
    requires Sound(s, log) && pid in s.procs && s.procs[pid].status.Exiting? && p in s.procs
    requires forall p | IsChild(s, p, pid) :: p in order.kids
    ensures
      var t := Complete(s, id, pid, order);
      && t.procs.Keys == s.procs.Keys && (t.procs[p].status.Exited? <==> p == pid || s.procs[p].status.Exited?)
      && (p != INIT ==> t.procs[p].ppid == if IsChild(s, p, pid) then INIT else s.procs[p].ppid)
  {
    EndedReady(s, id, pid, order.kids, log);
    AfterExitFolk(Ended(s, id, pid), pid, order, log, p);
  }

  lemma CompleteKnows(s: State, id: VirtualId, pid: Pid, order: Order, log: map<Pid, Fate>, w: Pid, k: Pid)
    requires Sound(s, log) && pid in s.procs && s.procs[pid].status.Exiting? && w in s.procs && (k == pid || Over(s, k))
    requires forall p | IsChild(s, p, pid) :: p in order.kids
    ensures Knows(Complete(s, id, pid, order), w, k) <==> Learns(s, pid, w, k) || (w == s.procs[pid].ppid && k == pid)
  {
    var s1 := Ended(s, id, pid);
    EndedReady(s, id, pid, order.kids, log);
    AfterExitKnows(s1, pid, order, log, w, k);
    FolkLearns(s, s1, pid, w, k);
  }

  lemma CompletePasses(s: State, id: VirtualId, pid: Pid, order: Order, log: map<Pid, Fate>)
    requires Sound(s, log) && pid in s.procs && s.procs[pid].status.Exiting?
    requires forall p | IsChild(s, p, pid) :: p in order.kids
    ensures Passes(s, Complete(s, id, pid, order), pid)
  {
    var t := Complete(s, id, pid, order);
    CompleteFolk(s, id, pid, order, log, pid);
    forall p | p in s.procs
      ensures t.procs[p].status.Exited? <==> p == pid || s.procs[p].status.Exited?
      ensures p != INIT ==> t.procs[p].ppid == if IsChild(s, p, pid) then INIT else s.procs[p].ppid
    {
      CompleteFolk(s, id, pid, order, log, p);
    }
    forall w, k | w in s.procs && (k == pid || Over(s, k))
      ensures Knows(t, w, k) <==> Learns(s, pid, w, k) || (w == s.procs[pid].ppid && k == pid)
    {
      CompleteKnows(s, id, pid, order, log, w, k);
    }
    ProcFates.CompleteKeeps(s, id, pid, order, log);
    forall w, k | Knows(t, w, k) ensures k == pid || Over(s, k) { KnownIsOver(t, log, w, k); }
  }

  /** Nobody knew of the exit before it was complete. */
  lemma NobodyKnew(s: State, pid: Pid, log: map<Pid, Fate>)
    requires Sound(s, log) && pid in s.procs && s.procs[pid].status.Exiting?
    ensures forall w :: !Knows(s, w, pid)
    ensures forall w :: !Learns(s, pid, w, pid)
  {
    forall w ensures !Knows(s, w, pid) { if Knows(s, w, pid) { KnownIsOver(s, log, w, pid); } }
    forall c | ChildHolds(s, pid, c, pid) ensures !s.procs[c].waitpid[pid].status.Terminated? { assert !Knows(s, c, pid); }
  }

  lemma PassesOnce(s: State, t: State, pid: Pid, log: map<Pid, Fate>)
    requires Sound(s, log) && KnownOnce(s) && pid in s.procs && s.procs[pid].status.Exiting? && Passes(s, t, pid)
    ensures KnownOnce(t)
  {
    NobodyKnew(s, pid, log);
    forall w, k ensures Once(t, w, k) {
      if w != INIT && Knows(t, w, k) && Knows(t, INIT, k) {
        assert Once(s, w, k);
        if k != pid {
          assert Knows(s, w, k) && !IsChild(s, w, pid) && InitLearns(s, pid, k);
          var c :| ChildHolds(s, pid, c, k);
          OneHolder(s, w, c, k);
        }
      }
    }
  }

  lemma OneHolder(s: State, w: Pid, c: Pid, k: Pid)
    requires NewsUnique(s) && w in s.procs && c in s.procs && w != INIT && c != INIT
    requires k in s.procs[w].waitpid && k in s.procs[c].waitpid
    ensures w == c
  {
    assert SoleHolders(s, w) && Sole(s, w, k);
  }

  /** An exited child of the exiting process: its record stays where it was. */
  lemma ChildForgotten(s: State, t: State, pid: Pid, log: map<Pid, Fate>, k: Pid)
    requires Sound(s, log) && ZombieKnown(s) && KnownOnce(s) && pid in s.procs && pid != INIT && Passes(s, t, pid)
    requires ExitedChild(s, k, pid) && k != pid
    ensures !ZombieKnown(t)
  {
    assert Recorded(s, k) && Knows(s, pid, k) && Once(s, pid, k);
    forall c ensures !ChildHolds(s, pid, c, k) {
      if ChildHolds(s, pid, c, k) {
        assert Parented(s, c);
        OneHolder(s, pid, c, k);
      }
    }
    assert !Knows(t, INIT, k) && !Recorded(t, k);
  }

  /** An exited grandchild: its record goes to init, it does not. */
  lemma GrandchildForgotten(s: State, t: State, pid: Pid, p: Pid, k: Pid)
    requires ZombieKnown(s) && pid in s.procs && Passes(s, t, pid)
    requires IsChild(s, p, pid) && ExitedChild(s, k, p) && p != pid && k != pid && !IsChild(s, k, pid)
    ensures !ZombieKnown(t)
  {
    assert !Knows(t, p, k);
    assert t.procs[k].ppid == p && !Recorded(t, k);
  }

  /** An exited child of init's whose record is overwritten. */
  lemma OverwrittenForgotten(s: State, t: State, pid: Pid, k: Pid)
    requires NewsUnique(s) && pid in s.procs && pid != INIT && Passes(s, t, pid)
    requires ExitedChild(s, k, INIT) && k != pid && StaleNews(s, pid, k)
    ensures !ZombieKnown(t)
  {
    var c :| ChildHolds(s, pid, c, k) && !s.procs[c].waitpid[k].status.Terminated?;
    OneChildHolds(s, pid, c, k);
    assert INIT in s.procs ==> !Knows(t, INIT, k);
    assert t.procs[k].ppid == INIT && !Recorded(t, k);
  }

  lemma OthersRecorded(s: State, t: State, pid: Pid, k: Pid)
    requires ZombieKnown(s) && pid in s.procs && pid != INIT && Passes(s, t, pid) && !ForgetsKin(s, pid)
    requires k in s.procs && k != INIT && k != pid && s.procs[k].status.Exited?
    ensures Recorded(t, k)
  {
    var p := s.procs[k].ppid;
    assert Recorded(s, k) && ExitedChild(s, k, p);
    assert !IsChild(s, p, pid);
    if p == INIT {
      forall c | ChildHolds(s, pid, c, k) ensures s.procs[c].waitpid[k].status.Terminated? {
        assert !StaleNews(s, pid, k);
      }
      assert InitLearns(s, pid, k);
    }
    assert Learns(s, pid, p, k) && Knows(t, p, k);
  }

  lemma CompleteZombies(s: State, id: VirtualId, pid: Pid, order: Order, log: map<Pid, Fate>)
    requires Sound(s, log) && ZombieKnown(s) && KnownOnce(s) && pid in s.procs && s.procs[pid].status.Exiting?
    requires forall p | IsChild(s, p, pid) :: p in order.kids
    ensures KnownOnce(Complete(s, id, pid, order))
    ensures ZombieKnown(Complete(s, id, pid, order)) <==> !ForgetsKin(s, pid)
  {
    var t := Complete(s, id, pid, order);
    CompletePasses(s, id, pid, order, log);
    PassesOnce(s, t, pid, log);
    assert Parented(s, pid);
    PassesZombies(s, t, pid, log);
  }

  lemma PassesZombies(s: State, t: State, pid: Pid, log: map<Pid, Fate>)
    requires Sound(s, log) && ZombieKnown(s) && KnownOnce(s) && pid in s.procs && pid != INIT && s.procs[pid].status.Exiting?
    requires Passes(s, t, pid) && s.procs[pid].ppid in s.procs
    ensures ZombieKnown(t) <==> !ForgetsKin(s, pid)
  {
    if k :| ExitedChild(s, k, pid) {
      ChildForgotten(s, t, pid, log, k);
    } else if p, k :| IsChild(s, p, pid) && ExitedChild(s, k, p) {
      assert Parented(s, p) && !ExitedChild(s, k, pid);
      GrandchildForgotten(s, t, pid, p, k);
    } else if k :| ExitedChild(s, k, INIT) && StaleNews(s, pid, k) {
      OverwrittenForgotten(s, t, pid, k);
    } else {
      forall k | k in t.procs && t.procs[k].status.Exited? ensures Recorded(t, k) {
        if k == pid {
          assert !IsChild(s, pid, pid) by { assert Parented(s, pid); }
          assert Knows(t, s.procs[pid].ppid, pid);
        } else {
          OthersRecorded(s, t, pid, k);
        }
      }
    }
  }

  // ---------------------------------------------------------------- the other steps

  /** The same parents, the same exited processes, the same knowledge. */
  ghost predicate SameKnowledge(s: State, t: State) {
    && t.procs.Keys == s.procs.Keys
    && (forall p | p in s.procs :: t.procs[p].ppid == s.procs[p].ppid && (t.procs[p].status.Exited? <==> s.procs[p].status.Exited?))
    && (forall w, k {:trigger Knows(t, w, k)} :: Knows(t, w, k) == Knows(s, w, k))
  }

  lemma SameZombies(s: State, t: State)
    requires SameKnowledge(s, t) && KnownOnce(s)
    ensures KnownOnce(t) && (ZombieKnown(t) <==> ZombieKnown(s))
  {
    forall w, k ensures Once(t, w, k) { assert Once(s, w, k); }
    forall k | k in s.procs && s.procs[k].status.Exited? ensures Recorded(t, k) == Recorded(s, k) {}
    if ZombieKnown(t) {
      forall k | k in s.procs && s.procs[k].status.Exited? ensures Recorded(s, k) { assert Recorded(t, k); }
    }
    if ZombieKnown(s) {
      forall k | k in t.procs && t.procs[k].status.Exited? ensures Recorded(t, k) { assert Recorded(s, k); }
    }
  }

  /** Nothing this is about differs. */
  ghost predicate SameHouse(s: State, t: State) {
    SameFolk(s, t) && forall p | p in s.procs :: t.procs[p].status.Exited? <==> s.procs[p].status.Exited?
  }

  lemma HouseKnows(s: State, t: State)
    requires SameHouse(s, t)
    ensures SameKnowledge(s, t)
  {}

  lemma HouseForgets(s: State, t: State, cur: Pid)
    requires SameHouse(s, t)
    ensures ForgetsKin(t, cur) <==> ForgetsKin(s, cur)
  {
    forall k, p ensures ExitedChild(t, k, p) == ExitedChild(s, k, p) {}
    forall p ensures IsChild(t, p, cur) == IsChild(s, p, cur) {}
    forall k ensures StaleNews(t, cur, k) == StaleNews(s, cur, k) { FolkAgrees(s, t, cur, k); }
  }

  /** What a step that may complete the exit of `pid` does. */
  ghost predicate Buries(s: State, t: State, pid: Pid, done: bool) {
    KnownOnce(t) && (ZombieKnown(t) <==> !(done && ForgetsKin(s, pid)))
  }

  lemma HouseBuries(s: State, t: State, pid: Pid)
    requires SameHouse(s, t) && KnownOnce(s) && ZombieKnown(s)
    ensures Buries(s, t, pid, false)
  {
    HouseKnows(s, t);
    SameZombies(s, t);
  }

  lemma BuriesFrom(s: State, s1: State, t: State, pid: Pid, done: bool)
    requires SameHouse(s, s1) && Buries(s1, t, pid, done)
    ensures Buries(s, t, pid, done)
  {
    HouseForgets(s, s1, pid);
  }

  /** Everything known of the state before the step. */
  ghost predicate Tidy(s: State, log: map<Pid, Fate>) {
    Sound(s, log) && ZombieKnown(s) && KnownOnce(s)
  }

  lemma SameTidy(s: State, t: State, log: map<Pid, Fate>)
    requires Tidy(s, log) && Sound(t, log) && SameHouse(s, t)
    ensures Tidy(t, log)
  {
    HouseKnows(s, t);
    SameZombies(s, t);
  }

  lemma ThreadsBury(s: State, id: VirtualId, order: Order, hit: Option<Pid>, log: map<Pid, Fate>)
    requires Tidy(s, log) && id in s.states && s.states[id].AwaitingThreadsTermination?
    requires forall p | IsChild(s, p, s.states[id].pid) :: p in order.kids
    ensures
      var pid := s.states[id].pid;
      Buries(s, WorkOn(s, id, order, hit).0, pid, pid in s.procs && s.procs[pid].threads == {} && s.procs[pid].status.Exiting?)
  {
    var pid := s.states[id].pid;
    if pid in s.procs && s.procs[pid].threads == {} && s.procs[pid].status.Exiting? {
      CompleteZombies(s, id, pid, order, log);
    } else {
      assert SameHouse(s, WorkOn(s, id, order, hit).0);
      HouseBuries(s, WorkOn(s, id, order, hit).0, pid);
    }
  }

  lemma ArmedTidy(s: State, id: VirtualId, pid: Pid, fate: Fate, tag: bool, log: map<Pid, Fate>)
    requires Tidy(s, log) && pid in s.procs && pid != INIT && !s.procs[pid].status.Ending() && ValidFate(fate)
    ensures Tidy(Armed(s, id, pid, fate, tag), log[pid := fate]) && SameHouse(s, Armed(s, id, pid, fate, tag))
  {
    var s1 := Armed(s, id, pid, fate, tag);
    ArmedSound(s, id, pid, fate, tag, log);
    assert SameHouse(s, s1);
    HouseKnows(s, s1);
    SameZombies(s, s1);
  }

  lemma ExitStartBuries(s: State, id: VirtualId, pid: Pid, raw: nat, tag: bool, order: Order, log: map<Pid, Fate>)
    requires Tidy(s, log) && pid != INIT
    requires forall p | IsChild(s, p, pid) :: p in order.kids
    ensures Buries(s, ExitStart(s, id, pid, raw, tag, order).0, pid, EndsAtOnce(s, pid, raw))
  {
    if pid in s.procs && !s.procs[pid].status.Ending() && DecodeExit(raw).Some? {
      var s1 := Armed(s, id, pid, DecodeExit(raw).value, tag);
      ArmedTidy(s, id, pid, DecodeExit(raw).value, tag, log);
      FolkAgrees(s, s1, pid, pid);
      ThreadsBury(s1, id, order, None, log[pid := DecodeExit(raw).value]);
      BuriesFrom(s, s1, WorkOn(s1, id, order, None).0, pid, EndsAtOnce(s, pid, raw));
    }
  }

  lemma LastDeathBuries(s: State, pid: Pid, tid: Tid, raw: nat, order: Order, log: map<Pid, Fate>)
    requires Tidy(s, log) && pid != INIT && pid in s.procs && s.procs[pid].threads == {tid}
    requires forall p | IsChild(s, p, pid) :: p in order.kids
    ensures
      var s1 := Bumped(DropThread(s, pid, tid));
      Buries(s, ExitStart(s1, InternalId(s.nextInternal), pid, raw, false, order).0, pid, EndsAtOnce(s1, pid, raw))
  {
    var id, s1 := InternalId(s.nextInternal), Bumped(DropThread(s, pid, tid));
    SameSound(s, s1, log);
    SameTidy(s, s1, log);
    FolkAgrees(s, s1, pid, pid);
    ExitStartBuries(s1, id, pid, raw, false, order, log);
    BuriesFrom(s, s1, ExitStart(s1, id, pid, raw, false, order).0, pid, EndsAtOnce(s1, pid, raw));
  }

  lemma ThreadDeathBuries(s: State, pid: Pid, tid: Tid, raw: nat, order: Order, log: map<Pid, Fate>)
    requires Tidy(s, log) && (pid == INIT && INIT in s.procs ==> !(s.procs[INIT].threads <= {tid}))
    requires forall p | IsChild(s, p, pid) :: p in order.kids
    ensures Buries(s, ThreadDeath(s, pid, tid, raw, order), pid, Completes(s, Death(pid, tid, raw)).Some?)
  {
    var id, t := InternalId(s.nextInternal), ThreadDeath(s, pid, tid, raw, order);
    if pid in s.procs && tid in s.procs[pid].threads && !s.procs[pid].status.Exiting?
       && s.procs[pid].threads == {tid} && id !in s.states {
      LastDeathBuries(s, pid, tid, raw, order, log);
      var s1 := Bumped(DropThread(s, pid, tid));
      assert s1.procs[pid].threads == {};
      assert t == ExitStart(s1, id, pid, raw, false, order).0;
    } else {
      OtherDeathHouse(s, pid, tid, raw, order);
      HouseBuries(s, t, pid);
    }
  }

  lemma OtherDeathHouse(s: State, pid: Pid, tid: Tid, raw: nat, order: Order)
    requires !(&& pid in s.procs && tid in s.procs[pid].threads && !s.procs[pid].status.Exiting?
               && s.procs[pid].threads == {tid} && InternalId(s.nextInternal) !in s.states)
    ensures SameHouse(s, ThreadDeath(s, pid, tid, raw, order))
  {
    if pid in s.procs && tid in s.procs[pid].threads {
      var s1 := DropThread(s, pid, tid);
      assert s1.procs[pid].threads == {} <==> s.procs[pid].threads == {tid};
      DropThreadBooks(s, pid, tid);
    }
  }

  /** A signal's target has not exited, so nobody knows of its termination before or after. */
  lemma SignalledKnows(s: State, target: Pid, sig: nat, log: map<Pid, Fate>, w: Pid, k: Pid)
    requires FatesFrozen(s, log) && target in s.procs && !s.procs[target].status.Ending() && w in s.procs
    ensures Knows(Signalled(s, target, sig), w, k) == Knows(s, w, k)
  {
    if k != target {
      SignalledKeepsNews(s, target, sig, w, k);
    } else if Knows(s, w, k) {
      KnownIsOver(s, log, w, k);
    }
  }

  lemma SignalledFolk(s: State, target: Pid, sig: nat, p: Pid)
    requires target in s.procs && !s.procs[target].status.Ending() && p in s.procs
    ensures
      var t := Signalled(s, target, sig);
      t.procs.Keys == s.procs.Keys && t.procs[p].ppid == s.procs[p].ppid && (t.procs[p].status.Exited? <==> s.procs[p].status.Exited?)
  {}

  lemma SignalKnows(s: State, caller: Pid, target: Pid, sig: nat, willStop: bool, log: map<Pid, Fate>)
    requires FatesFrozen(s, log)
    ensures SameKnowledge(s, SendSig(s, caller, target, sig, willStop).0)
  {
    var t := SendSig(s, caller, target, sig, willStop).0;
    SendSigShape(s, caller, target, sig, willStop);
    if t != s {
      SignalledFolk(s, target, sig, target);
      forall p | p in s.procs
        ensures t.procs[p].ppid == s.procs[p].ppid && (t.procs[p].status.Exited? <==> s.procs[p].status.Exited?)
      {
        SignalledFolk(s, target, sig, p);
      }
      forall w, k ensures Knows(t, w, k) == Knows(s, w, k) {
        if w in s.procs { SignalledKnows(s, target, sig, log, w, k); }
      }
    }
  }

  // ---------------------------------------------------------------- waitpid

  /** `c` was taken from the records of `w` and has left the table, unless it still has a thread. */
  ghost predicate Taken(s: State, t: State, w: Pid, c: Pid) {
    && (if c in s.procs && s.procs[c].threads == {} then t.procs.Keys == s.procs.Keys - {c} else t.procs.Keys == s.procs.Keys)
    && (forall p | p in t.procs :: t.procs[p].ppid == s.procs[p].ppid && t.procs[p].status == s.procs[p].status)
    && (forall v, k {:trigger Knows(t, v, k)} :: Knows(t, v, k) <==> v in t.procs && Knows(s, v, k) && !(v == w && k == c))
  }

  lemma ReapTakes(s: State, w: Pid, c: Pid)
    requires w in s.procs
    ensures Taken(s, Reap(TakeRecord(s, w, c), c), w, c)
  {}

  lemma TakenOnce(s: State, t: State, w: Pid, c: Pid)
    requires Taken(s, t, w, c) && KnownOnce(s)
    ensures KnownOnce(t)
  {
    forall v, k ensures Once(t, v, k) { assert Once(s, v, k); }
  }

  /** Whoever takes the termination of a process in the table is its parent. */
  lemma TakerIsParent(s: State, w: Pid, target: WaitpidTarget, hit: Option<Pid>)
    requires NewsUnique(s) && KnownOnce(s) && ZombieKnown(s)
    requires WaitpidRefusal(s, w, target).None? && Pick(s, w, target, hit).Some? && Pick(s, w, target, hit).value.1.Terminated?
    ensures
      var c := Pick(s, w, target, hit).value.0;
      c in s.procs && s.procs[c].status.Exited? ==> s.procs[c].ppid == w
  {
    var c := Pick(s, w, target, hit).value.0;
    if c in s.procs && s.procs[c].status.Exited? && !(target.SingleProc? && s.procs[target.pid].status.Exited?) {
      var p := s.procs[c].ppid;
      assert Recorded(s, c) && Knows(s, p, c) && Knows(s, w, c);
      assert Once(s, w, c) && Once(s, p, c);
      if p != INIT && w != INIT { OneHolder(s, w, p, c); }
    }
  }

  /** As much of it as a waitpid call needs. */
  ghost predicate TidyBooks(s: State, log: map<Pid, Fate>) {
    NewsUnique(s) && FatesFrozen(s, log) && IsTree(s) && ZombieKnown(s) && KnownOnce(s)
  }

  lemma TakenZombies(s: State, t: State, w: Pid, c: Pid, log: map<Pid, Fate>)
    requires TidyBooks(s, log) && Taken(s, t, w, c)
    requires c in s.procs ==> s.procs[c].status.Exited? && s.procs[c].ppid == w
    ensures ZombieKnown(t) <==> !(c in s.procs && s.procs[c].threads != {})
  {
    if c in s.procs && s.procs[c].threads != {} {
      assert !Recorded(t, c);
    } else {
      forall k | k in t.procs && t.procs[k].status.Exited? ensures Recorded(t, k) {
        assert Recorded(s, k);
        var p := s.procs[k].ppid;
        assert k != INIT && Parented(s, k);
        assert k != c && p != c;
      }
    }
  }

  lemma TakenOrDropped(s: State, w: Pid, target: WaitpidTarget, flags: WaitFlags, id: VirtualId, hit: Option<Pid>)
    requires WaitpidRefusal(s, w, target).None? && Pick(s, w, target, hit).Some?
    ensures
      var (c, st) := Pick(s, w, target, hit).value;
      var s1 := OnWaitpid(s, w, target, flags, id, hit).0;
      if st.Terminated? then Taken(s, s1, w, c) else SameKnowledge(s, s1)
  {
    var (c, st) := Pick(s, w, target, hit).value;
    var s1 := OnWaitpid(s, w, target, flags, id, hit).0;
    if st.Terminated? {
      assert s1 == Reap(TakeRecord(s, w, c), c);
      ReapTakes(s, w, c);
    } else {
      assert s1 == TakeRecord(s, w, c);
    }
  }

  /** The call has news to take. */
  lemma PickZombies(s: State, w: Pid, target: WaitpidTarget, flags: WaitFlags, id: VirtualId, hit: Option<Pid>, log: map<Pid, Fate>)
    requires TidyBooks(s, log) && WaitpidRefusal(s, w, target).None? && Pick(s, w, target, hit).Some?
    ensures
      var (c, st) := Pick(s, w, target, hit).value;
      var t := OnWaitpid(s, w, target, flags, id, hit).0;
      KnownOnce(t) && (ZombieKnown(t) <==> !(st.Terminated? && c in s.procs && s.procs[c].threads != {}))
  {
    var (c, st) := Pick(s, w, target, hit).value;
    var t := OnWaitpid(s, w, target, flags, id, hit).0;
    TakenOrDropped(s, w, target, flags, id, hit);
    if st.Terminated? {
      PickTrue(s, w, target, hit, log);
      TakerIsParent(s, w, target, hit);
      TakenOnce(s, t, w, c);
      TakenZombies(s, t, w, c, log);
    } else {
      SameZombies(s, t);
    }
  }

  /** It has none, and at most the list of waiters changes. */
  lemma NoPickZombies(s: State, w: Pid, target: WaitpidTarget, flags: WaitFlags, id: VirtualId, hit: Option<Pid>)
    requires ZombieKnown(s) && KnownOnce(s) && (WaitpidRefusal(s, w, target).None? ==> Pick(s, w, target, hit).None?)
    ensures var t := OnWaitpid(s, w, target, flags, id, hit).0; KnownOnce(t) && ZombieKnown(t)
  {
    var t := OnWaitpid(s, w, target, flags, id, hit).0;
    assert t == s || (w in s.procs && t == Register(s, w, id));
    assert SameHouse(s, t);
    HouseBuries(s, t, w);
  }

  lemma LookZombies(s: State, id: VirtualId, order: Order, hit: Option<Pid>, log: map<Pid, Fate>)
    requires TidyBooks(s, log) && id in s.states && s.states[id].AwaitingStatusChange?
    ensures
      var t := WorkOn(s, id, order, hit).0;
      KnownOnce(t) && (ZombieKnown(t) <==> !LeavesBody(s, id, hit))
  {
    var AwaitingStatusChange(w, target, flags) := s.states[id];
    var s1, t := OnWaitpid(s, w, target, flags, id, hit).0, WorkOn(s, id, order, hit).0;
    if WaitpidRefusal(s, w, target).None? && Pick(s, w, target, hit).Some? {
      PickZombies(s, w, target, flags, id, hit, log);
    } else {
      NoPickZombies(s, w, target, flags, id, hit);
    }
    assert t.procs == s1.procs && SameHouse(s1, t);
    HouseKnows(s1, t);
    SameZombies(s1, t);
  }

  // ---------------------------------------------------------------- every step

  lemma CallZombies(s: State, i: Input, log: map<Pid, Fate>)
    requires Tidy(s, log) && i.event.Call? && !i.event.verb.Waitpid? && Orderly(s, i)
    ensures KnownOnce(Next(s, i)) && (ZombieKnown(Next(s, i)) <==> !Forgets(s, i))
  {
    var Call(n, caller, verb) := i.event;
    var s0, t := Forget(s, KernelId(n)), Next(s, i);
    if verb.Exit? {
      SameSound(s, s0, log);
      SameTidy(s, s0, log);
      FolkAgrees(s, s0, caller, caller);
      ExitStartBuries(s0, KernelId(n), caller, verb.raw, true, i.order, log);
      assert t == ExitStart(s0, KernelId(n), caller, verb.raw, true, i.order).0;
      BuriesFrom(s, s0, t, caller, EndsAtOnce(s0, caller, verb.raw));
    } else if verb.Kill? {
      assert t == SendSig(s0, caller, verb.victim, verb.sig, verb.willStop).0;
      ProcFates.SameKeeps(s, s0, log);
      SignalKnows(s0, caller, verb.victim, verb.sig, verb.willStop, log);
      HouseKnows(s, s0);
      SameZombies(s, s0);
      SameZombies(s0, t);
    } else {
      PlainCall(s, n, caller, verb, i.order, i.hit);
      forall p | p in s0.procs
        ensures t.procs[p].ppid == s.procs[p].ppid && t.procs[p].waitpid == s.procs[p].waitpid && t.procs[p].status == s.procs[p].status
      {
        assert PlainProc(s0, t, p);
      }
      HouseBuries(s, t, caller);
    }
  }

  lemma WakeZombies(s: State, i: Input, log: map<Pid, Fate>)
    requires Tidy(s, log) && i.event.WakeEvent? && Orderly(s, i) && Examined(s, i.event).None?
    ensures KnownOnce(Next(s, i)) && (ZombieKnown(Next(s, i)) <==> !Forgets(s, i))
  {
    var t := Next(s, i);
    if s.awoken != [] && s.awoken[0] in s.states && s.states[s.awoken[0]].AwaitingThreadsTermination? {
      var id, s1 := s.awoken[0], s.(awoken := s.awoken[1..]);
      var pid := s.states[id].pid;
      SameSound(s, s1, log);
      SameTidy(s, s1, log);
      FolkAgrees(s, s1, pid, pid);
      ThreadsBury(s1, id, i.order, i.hit, log);
      assert t == WorkOn(s1, id, i.order, i.hit).0;
      BuriesFrom(s, s1, t, pid, Completes(s, i.event).Some?);
    } else {
      assert SameHouse(s, t);
      HouseBuries(s, t, INIT);
    }
  }

  lemma ExaminedZombies(s: State, i: Input, log: map<Pid, Fate>)
    requires Tidy(s, log) && Examined(s, i.event).Some?
    ensures KnownOnce(Next(s, i)) && (ZombieKnown(Next(s, i)) <==> !Forgets(s, i))
  {
    var (s1, id) := Examined(s, i.event).value;
    assert Next(s, i) == WorkOn(s1, id, i.order, i.hit).0;
    ProcRecords.SameKeeps(s, s1);
    ProcFates.SameKeeps(s, s1, log);
    FamilyKeeps(s, s1);
    HouseKnows(s, s1);
    SameZombies(s, s1);
    LookZombies(s1, id, i.order, i.hit, log);
  }

  lemma ForkZombies(s: State, parent: Pid, tid: Tid)
    requires ZombieKnown(s) && KnownOnce(s) && ProcPids.PidsKnown(s)
    ensures ZombieKnown(Fork(s, parent, tid)) && KnownOnce(Fork(s, parent, tid))
  {
    var t := Fork(s, parent, tid);
    forall w, k ensures Knows(t, w, k) == Knows(s, w, k) {}
    forall w, k ensures Once(t, w, k) { assert Once(s, w, k); }
    forall k | k in t.procs && t.procs[k].status.Exited? ensures Recorded(t, k) { assert Recorded(s, k); }
  }

  /**
   From a reachable state in which every exited process is on record with its parent, a step leads
   to such a state exactly if it is not one of those that forget.
   */
  lemma ZombieKnownIff(s: State, i: Input, log: map<Pid, Fate>)
    requires Tidy(s, log) && Orderly(s, i)
    ensures KnownOnce(Next(s, i)) && (ZombieKnown(Next(s, i)) <==> !Forgets(s, i))
  {
    match i.event
    case ForkEvent(parent, tid) => ForkZombies(s, parent, tid);
    case Call(n, caller, verb) => if verb.Waitpid? { ExaminedZombies(s, i, log); } else { CallZombies(s, i, log); }
    case Death(pid, tid, raw) => ThreadDeathBuries(s, pid, tid, raw, i.order, log);
    case WakeEvent => if Examined(s, i.event).Some? { ExaminedZombies(s, i, log); } else { WakeZombies(s, i, log); }
    case _ =>
      assert SameHouse(s, Next(s, i));
      HouseBuries(s, Next(s, i), INIT);
  }

  // ---------------------------------------------------------------- runs

  ghost predicate ForgetsNot(s: State, i: Input) { !Forgets(s, i) }

  /** At every moment of the run. */
  ghost predicate AlwaysKnown(s: State, ins: seq<Input>)
    decreases ins
  {
    ZombieKnown(s) && (ins != [] ==> AlwaysKnown(Next(s, ins[0]), ins[1..]))
  }

  lemma {:induction false} RunKnownIff(s: State, ins: seq<Input>, log: map<Pid, Fate>)
    requires Tidy(s, log) && Along(s, ins, Orderly)
    ensures AlwaysKnown(s, ins) <==> Along(s, ins, ForgetsNot)
    decreases ins
  {
    if ins != [] {
      var i, t := ins[0], Next(s, ins[0]);
      ZombieKnownIff(s, i, log);
      var log' := ProcFates.NextKeeps(s, i, log);
      ProcRecords.NextKeeps(s, i);
      ProcPids.NextKeeps(s, i);
      ProcTree.NextKeeps(s, i, log);
      if ZombieKnown(t) { RunKnownIff(t, ins[1..], log'); }
    }
  }

  /** Exited processes stay on record with their parents throughout a run exactly if no step of it forgets. */
  lemma EveryZombieKnownIff(tid: Tid, ins: seq<Input>)
    requires Along(Claimed(tid), ins, Orderly)
    ensures AlwaysKnown(Claimed(tid), ins) <==> Along(Claimed(tid), ins, ForgetsNot)
  {
    var log := RunSound(tid, []);
    forall w, k ensures Once(Claimed(tid), w, k) {}
    RunKnownIff(Claimed(tid), ins, log);
  }
}
