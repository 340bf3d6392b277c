/**
 Who holds news about whom.  Apart from init, at most one process holds a record about a given
 pid; so the order in which children are handed to init does not matter, and it is clear which
 records the handing over destroys.
 */
module ProcRecords {
  import opened Prelude
  import opened ProcModel
  import opened ProcFrame
  import opened ProcRuns
  import ProcPids
  import opened ProcFates
  import opened ProcTree

  /** `w` is, or was until it exited, the parent of `k`, and nobody else but init has news of `k`. */
  ghost predicate Sole(s: State, w: Pid, k: Pid) {
    && k < s.nextId
    && (k in s.procs ==> s.procs[k].ppid == w || s.procs[k].ppid == INIT)
    && (forall v | v in s.procs && v != INIT && v != w :: k !in s.procs[v].waitpid)
  }

  ghost predicate SoleHolders(s: State, w: Pid)
    requires w in s.procs
  {
    w != INIT ==> forall k | k in s.procs[w].waitpid :: Sole(s, w, k)
  }

  ghost predicate NewsUnique(s: State) {
    forall w {:trigger SoleHolders(s, w)} | w in s.procs :: SoleHolders(s, w)
  }

  // ---------------------------------------------------------------- kept by every step

  /** No process other than init gains news, except about its own children. */
  ghost predicate NewsKept(s: State, t: State, w: Pid)
    requires w in t.procs
  {
    && w in s.procs
    && (w != INIT ==> forall k | k in t.procs[w].waitpid :: HolderCalm(s, w, k))
    && (t.procs[w].ppid == s.procs[w].ppid || t.procs[w].ppid == INIT)
  }

  lemma NewsKeptKeeps(s: State, t: State)
    requires NewsUnique(s) && ProcPids.PidsKnown(s) && s.nextId <= t.nextId
    requires forall w {:trigger NewsKept(s, t, w)} | w in t.procs :: NewsKept(s, t, w)
    ensures NewsUnique(t)
  {
    forall w | w in t.procs && w != INIT ensures SoleHolders(t, w) {
      assert NewsKept(s, t, w) && SoleHolders(s, w);
      forall k | k in t.procs[w].waitpid ensures Sole(t, w, k) {
        assert HolderCalm(s, w, k);
        if k in t.procs { assert NewsKept(s, t, k); }
        forall v | v in t.procs && v != INIT && v != w ensures k !in t.procs[v].waitpid {
          assert NewsKept(s, t, v) && SoleHolders(s, v);
          assert k in t.procs[v].waitpid ==> HolderCalm(s, v, k);
          assert k in s.procs[v].waitpid ==> Sole(s, v, k);
        }
      }
    }
  }

  lemma CalmKeeps(s: State, t: State)
    requires NewsUnique(s) && ProcPids.PidsKnown(s) && Calm(s, t)
    ensures NewsUnique(t)
  {
    forall w | w in t.procs ensures NewsKept(s, t, w) { assert CalmProc(s, t, w); }
    NewsKeptKeeps(s, t);
  }

  /** The same parents and the same records. */
  lemma SameKeeps(s: State, t: State)
    requires NewsUnique(s) && ProcPids.PidsKnown(s) && t.procs.Keys == s.procs.Keys && s.nextId <= t.nextId
    requires forall p | p in s.procs :: t.procs[p].ppid == s.procs[p].ppid && t.procs[p].waitpid == s.procs[p].waitpid
    ensures NewsUnique(t)
  {
    forall w | w in t.procs ensures NewsKept(s, t, w) {}
    NewsKeptKeeps(s, t);
  }

  lemma LookKeeps(s: State, id: VirtualId, order: Order, hit: Option<Pid>)
    requires NewsUnique(s) && ProcPids.PidsKnown(s) && id in s.states && s.states[id].AwaitingStatusChange?
    ensures NewsUnique(WorkOn(s, id, order, hit).0)
  {
    var AwaitingStatusChange(w, target, flags) := s.states[id];
    var s1, t := OnWaitpid(s, w, target, flags, id, hit).0, WorkOn(s, id, order, hit).0;
    OnWaitpidFrame(s, w, target, flags, id, hit);
    forall v | v in t.procs ensures NewsKept(s, t, v) { assert WaitedProc(s, s1, v, id); }
    NewsKeptKeeps(s, t);
  }

  lemma CompleteKeeps(s: State, id: VirtualId, pid: Pid, order: Order)
    requires NewsUnique(s) && ProcPids.PidsKnown(s) && pid in s.procs && s.procs[pid].status.Exiting?
    ensures NewsUnique(Complete(s, id, pid, order))
  {
    var s1 := Put(Forget(s, id), pid, s.procs[pid].(status := Exited(s.procs[pid].status.fate)));
    SameKeeps(s, s1);
    AfterExitCalm(s1, pid, order);
    CalmKeeps(s1, AfterExit(s1, pid, order));
  }

  lemma WorkOnKeeps(s: State, id: VirtualId, order: Order, hit: Option<Pid>)
    requires NewsUnique(s) && ProcPids.PidsKnown(s) && id in s.states
    ensures NewsUnique(WorkOn(s, id, order, hit).0)
  {
    var t := WorkOn(s, id, order, hit).0;
    match s.states[id]
    case AwaitingStatusChange(w, target, flags) => LookKeeps(s, id, order, hit);
    case AwaitingThreadsTermination(pid, _) =>
      if pid in s.procs && s.procs[pid].threads == {} && s.procs[pid].status.Exiting? {
        CompleteKeeps(s, id, pid, order);
      } else {
        SameKeeps(s, t);
      }
    case Placeholder =>
  }

  lemma ExitStartKeeps(s: State, id: VirtualId, pid: Pid, raw: nat, tag: bool, order: Order)
    requires NewsUnique(s) && ProcPids.PidsKnown(s)
    ensures NewsUnique(ExitStart(s, id, pid, raw, tag, order).0)
  {
    if pid in s.procs && !s.procs[pid].status.Ending() && DecodeExit(raw).Some? {
      var s1 := Armed(s, id, pid, DecodeExit(raw).value, tag);
      SameKeeps(s, s1);
      WorkOnKeeps(s1, id, order, None);
      assert ExitStart(s, id, pid, raw, tag, order).0 == WorkOn(s1, id, order, None).0;
    }
  }

  lemma ThreadDeathKeeps(s: State, pid: Pid, tid: Tid, raw: nat, order: Order)
    requires NewsUnique(s) && ProcPids.PidsKnown(s)
    ensures NewsUnique(ThreadDeath(s, pid, tid, raw, order))
  {
    var t := ThreadDeath(s, pid, tid, raw, order);
    if pid in s.procs && tid in s.procs[pid].threads {
      var s1 := DropThread(s, pid, tid);
      if s1.procs[pid].status.Exiting? {
        assert t == WakeAwaiting(s1, pid);
        SameKeeps(s, t);
      } else {
        SameKeeps(s, s1);
        SameKeeps(s, Bumped(s1));
        ExitStartKeeps(Bumped(s1), InternalId(s.nextInternal), pid, raw, false, order);
      }
    }
  }

  lemma OnCallKeeps(s: State, n: nat, caller: Pid, verb: Verb, order: Order, hit: Option<Pid>)
    requires NewsUnique(s) && ProcPids.PidsKnown(s)
    ensures NewsUnique(OnCall(s, n, caller, verb, order, hit).0)
  {
    var id, s0, t := KernelId(n), Forget(s, KernelId(n)), OnCall(s, n, caller, verb, order, hit).0;
    SameKeeps(s, s0);
    match verb
    case Exit(raw) =>
      ExitStartKeeps(s0, id, caller, raw, true, order);
      assert t == ExitStart(s0, id, caller, raw, true, order).0;
    case Waitpid(target, flags) =>
      WaitpidCallKeeps(s0, id, caller, target, flags, order, hit);
    case Kill(victim, sig, willStop) =>
      SendSigCalm(s0, caller, victim, sig, willStop);
      assert t == SendSig(s0, caller, victim, sig, willStop).0;
      CalmKeeps(s0, t);
    case _ =>
      PlainCall(s, n, caller, verb, order, hit);
      forall w | w in t.procs ensures NewsKept(s0, t, w) { assert PlainProc(s0, t, w); }
      NewsKeptKeeps(s0, t);
  }

  lemma WaitpidCallKeeps(s: State, id: VirtualId, w: Pid, target: WaitpidTarget, flags: WaitFlags, order: Order, hit: Option<Pid>)
    requires NewsUnique(s) && ProcPids.PidsKnown(s)
    ensures NewsUnique(WorkOn(s.(states := s.states[id := AwaitingStatusChange(w, target, flags)]), id, order, hit).0)
  {
    var s1 := s.(states := s.states[id := AwaitingStatusChange(w, target, flags)]);
    var s2 := OnWaitpid(s1, w, target, flags, id, hit).0;
    OnWaitpidFrame(s1, w, target, flags, id, hit);
    var t := WorkOn(s1, id, order, hit).0;
    assert t == s2 || t == Spend(s2, id);
    forall v | v in t.procs ensures NewsKept(s, t, v) { assert WaitedProc(s1, s2, v, id); }
    NewsKeptKeeps(s, t);
  }

  lemma ForkKeeps(s: State, parent: Pid, tid: Tid)
    requires NewsUnique(s) && ProcPids.PidsKnown(s)
    ensures NewsUnique(Fork(s, parent, tid))
  {
    var t := Fork(s, parent, tid);
    forall w | w in t.procs ensures SoleHolders(t, w) {
      if w in s.procs {
        assert SoleHolders(s, w);
        forall k | w != INIT && k in t.procs[w].waitpid ensures Sole(t, w, k) { assert Sole(s, w, k); }
      }
    }
  }

  lemma NextKeeps(s: State, i: Input)
    requires NewsUnique(s) && ProcPids.PidsKnown(s)
    ensures NewsUnique(Next(s, i))
  {
    match i.event
    case ForkEvent(parent, tid) =>
      ForkKeeps(s, parent, tid);
    case ThreadEvent(pid, tid) => SameKeeps(s, Next(s, i));
    case Call(n, caller, verb) => OnCallKeeps(s, n, caller, verb, i.order, i.hit);
    case CancelEvent(n) => SameKeeps(s, Next(s, i));
    case Death(pid, tid, raw) => ThreadDeathKeeps(s, pid, tid, raw, i.order);
    case WakeEvent =>
      if s.awoken != [] {
        var s1 := s.(awoken := s.awoken[1..]);
        SameKeeps(s, s1);
        if s.awoken[0] in s1.states {
          WorkOnKeeps(s1, s.awoken[0], i.order, i.hit);
          assert Next(s, i) == WorkOn(s1, s.awoken[0], i.order, i.hit).0;
        }
      }
  }

  /** In every reachable state at most one process besides init has news of a given pid. */
  lemma {:induction false} NewsStaysUnique(s: State, ins: seq<Input>)
    requires NewsUnique(s) && ProcPids.PidsKnown(s)
    ensures NewsUnique(Run(s, ins))
    decreases ins
  {
    if ins != [] {
      NextKeeps(s, ins[0]);
      ProcPids.NextKeeps(s, ins[0]);
      NewsStaysUnique(Next(s, ins[0]), ins[1..]);
    }
  }

  // ---------------------------------------------------------------- handing children to init

  /** The child of `cur` that holds news of `k`, in the sense that no other child does. */
  ghost predicate ChildHolds(s: State, cur: Pid, c: Pid, k: Pid) {
    IsChild(s, c, cur) && k in s.procs[c].waitpid
  }

  /** Init's record of `k` once all children have been handed over. */
  lemma {:induction false} ReparentRecord(s: State, cur: Pid, order: seq<Pid>, c: Pid, k: Pid)
    requires INIT in s.procs && cur != INIT
    requires ChildHolds(s, cur, c, k) && c in order
    requires forall d | ChildHolds(s, cur, d, k) :: d == c
    ensures
      var m := Reparent(s, cur, order).procs[INIT].waitpid;
      k in m && m[k] == s.procs[c].waitpid[k]
    decreases order
  {
    var s1 := if IsChild(s, order[0], cur) then ReparentOne(s, order[0]) else s;
    assert order[0] == c || c in order[1..];
    if order[0] == c {
      forall d ensures !ChildHolds(s1, cur, d, k) {
        assert ChildHolds(s1, cur, d, k) ==> ChildHolds(s, cur, d, k) && d != c;
      }
      ReparentNoRecord(s1, cur, order[1..], k);
    } else {
      forall d | ChildHolds(s1, cur, d, k) ensures d == c { assert ChildHolds(s, cur, d, k); }
      ReparentRecord(s1, cur, order[1..], c, k);
    }
  }

  lemma {:induction false} ReparentNoRecord(s: State, cur: Pid, order: seq<Pid>, k: Pid)
    requires INIT in s.procs && cur != INIT
    requires forall d :: !ChildHolds(s, cur, d, k)
    ensures
      var m, was := Reparent(s, cur, order).procs[INIT].waitpid, s.procs[INIT].waitpid;
      && (k in m <==> k in was)
      && (k in m ==> m[k] == was[k])
    decreases order
  {
    if order != [] {
      var s1 := if IsChild(s, order[0], cur) then ReparentOne(s, order[0]) else s;
      forall d ensures !ChildHolds(s1, cur, d, k) { assert !ChildHolds(s, cur, d, k); }
      assert !ChildHolds(s, cur, order[0], k);
      ReparentNoRecord(s1, cur, order[1..], k);
    }
  }

  lemma OneChildHolds(s: State, cur: Pid, c: Pid, k: Pid)
    requires NewsUnique(s) && ChildHolds(s, cur, c, k)
    ensures forall d | ChildHolds(s, cur, d, k) :: d == c
  {
    assert SoleHolders(s, c);
    assert Sole(s, c, k);
  }

  /** The hash map may be walked in any order: the table comes out the same. */
  lemma ReparentOrderIrrelevant(s: State, cur: Pid, order: seq<Pid>, order': seq<Pid>)
    requires NewsUnique(s) && INIT in s.procs && cur != INIT
    requires forall p | IsChild(s, p, cur) :: p in order && p in order'
    ensures Reparent(s, cur, order) == Reparent(s, cur, order')
  {
    var t, t' := Reparent(s, cur, order), Reparent(s, cur, order');
    forall k ensures k in t.procs[INIT].waitpid <==> k in t'.procs[INIT].waitpid
             ensures k in t.procs[INIT].waitpid ==> t.procs[INIT].waitpid[k] == t'.procs[INIT].waitpid[k]
    {
      if c :| ChildHolds(s, cur, c, k) {
        OneChildHolds(s, cur, c, k);
        ReparentRecord(s, cur, order, c, k);
        ReparentRecord(s, cur, order', c, k);
      } else {
        ReparentNoRecord(s, cur, order, k);
        ReparentNoRecord(s, cur, order', k);
      }
    }
    assert t.procs[INIT].waitpid == t'.procs[INIT].waitpid;
    forall p | p in s.procs ensures t.procs[p] == t'.procs[p] {
      ReparentOthers(s, cur, order, p);
      ReparentOthers(s, cur, order', p);
    }
    assert t.procs == t'.procs;
    ReparentRest(s, cur, order);
    ReparentRest(s, cur, order');
  }

  /** Apart from init's records, each process changes only if it is a child of `cur`. */
  lemma {:induction false} ReparentOthers(s: State, cur: Pid, order: seq<Pid>, p: Pid)
    requires INIT in s.procs && cur != INIT && p in s.procs
    ensures
      var q := Reparent(s, cur, order).procs[p];
      if p == INIT then q == s.procs[p].(waitpid := q.waitpid)
      else if IsChild(s, p, cur) && p in order then q == s.procs[p].(ppid := INIT, waitpid := map[])
      else q == s.procs[p]
    decreases order
  {
    if order != [] {
      var s1 := if IsChild(s, order[0], cur) then ReparentOne(s, order[0]) else s;
      ReparentOthers(s1, cur, order[1..], p);
      assert p in order <==> p == order[0] || p in order[1..];
    }
  }

  lemma {:induction false} ReparentRest(s: State, cur: Pid, order: seq<Pid>)
    requires INIT in s.procs
    ensures Reparent(s, cur, order) == s.(procs := Reparent(s, cur, order).procs)
    decreases order
  {
    if order != [] {
      var s1 := if IsChild(s, order[0], cur) then ReparentOne(s, order[0]) else s;
      ReparentRest(s1, cur, order[1..]);
    }
  }
}
