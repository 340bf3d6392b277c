/**
 The process manager as an object that updates its tables in place, loops included.  Every method
 is proved to do to the tables exactly what the step function of the same name says; wherever a
 hash map is walked, the walk's order is arbitrary and is returned as a ghost.
 */
module ProcManager {
  import opened Prelude
  import opened ProcModel
  import M = ProcModel
  import ProcFrame
  import opened ProcRuns
  import ProcDrain

  // ---------------------------------------------------------------- folds, one element at a time

  lemma {:induction false} ReparentSnoc(s: State, cur: Pid, order: seq<Pid>, p: Pid)
    requires INIT in s.procs
    ensures
      var t := Reparent(s, cur, order);
      Reparent(s, cur, order + [p]) == if IsChild(t, p, cur) then ReparentOne(t, p) else t
    decreases order
  {
    if order == [] {
      assert [p][1..] == [];
      var t := Reparent(s, cur, [p]);
    } else {
      var s1 := if IsChild(s, order[0], cur) then ReparentOne(s, order[0]) else s;
      assert (order + [p])[1..] == order[1..] + [p];
      ReparentSnoc(s1, cur, order[1..], p);
    }
  }

  lemma {:induction false} RouseAllSnoc(s: State, members: seq<Pid>, m: Pid)
    ensures RouseAll(s, members + [m]) == Rouse(RouseAll(s, members), m)
    decreases members
  {
    if members == [] {
      assert [m][1..] == [];
      var t := RouseAll(s, [m]);
    } else {
      assert (members + [m])[1..] == members[1..] + [m];
      RouseAllSnoc(Rouse(s, members[0]), members[1..], m);
    }
  }

  lemma {:induction false} RouseOrphansSnoc(s: State, was: State, cur: Pid, order: seq<Pid>, g: Pid)
    ensures RouseOrphans(s, was, cur, order + [g]) == ProcFrame.RouseStep(RouseOrphans(s, was, cur, order), was, cur, g)
    decreases order
  {
    if order == [] {
      assert [g][1..] == [];
      var t := RouseOrphans(s, was, cur, [g]);
    } else {
      assert (order + [g])[1..] == order[1..] + [g];
      RouseOrphansSnoc(ProcFrame.RouseStep(s, was, cur, order[0]), was, cur, order[1..], g);
    }
  }

  // ---------------------------------------------------------------- walks nobody made

  lemma Enumerate(ps: set<Pid>) returns (order: seq<Pid>)
    ensures forall p | p in ps :: p in order
    decreases ps
  {
    if ps == {} {
      order := [];
    } else {
      var p :| p in ps;
      var rest := Enumerate(ps - {p});
      order := [p] + rest;
    }
  }

  lemma AnyWalk(s: State, cur: Pid) returns (order: Order)
    ensures Covers(s, cur, order)
  {
    var kids := Enumerate(s.procs.Keys);
    var pgrps := Enumerate(s.groups.Keys);
    order := Order(kids, pgrps);
  }

  /** A walk covers the same processes where parents and groups are the same. */
  lemma SameWalk(s: State, t: State, cur: Pid, order: Order)
    requires Covers(t, cur, order) && t.procs.Keys == s.procs.Keys && t.groups == s.groups
    requires forall p | p in s.procs :: t.procs[p].ppid == s.procs[p].ppid && t.procs[p].pgid == s.procs[p].pgid
    ensures Covers(s, cur, order)
  {
    assert forall p :: IsChild(t, p, cur) == IsChild(s, p, cur);
    assert forall g :: Affected(t, cur, g) == Affected(s, cur, g);
  }

  /** Where no walk was made any walk will do; elsewhere the one made covers everybody. */
  lemma WidenWalk(s0: State, s1: State, pid: Pid, order: Order) returns (wide: Order)
    requires pid in s1.procs && s1.procs[pid].status.Exited?
    requires s1.procs.Keys == s0.procs.Keys && s1.groups == s0.groups
    requires forall p | p in s0.procs :: s1.procs[p].ppid == s0.procs[p].ppid && s1.procs[p].pgid == s0.procs[p].pgid
    requires s1.procs[pid].ppid in s1.procs && INIT in s1.procs ==> Covers(s1, pid, order)
    ensures Covers(s0, pid, wide) && AfterExit(s1, pid, wide) == AfterExit(s1, pid, order)
  {
    if s1.procs[pid].ppid in s1.procs && INIT in s1.procs {
      wide := order;
      SameWalk(s0, s1, pid, order);
    } else {
      wide := AnyWalk(s0, pid);
      ProcFrame.AfterExitShape(s1, pid, wide);
      ProcFrame.AfterExitShape(s1, pid, order);
    }
  }

  // ---------------------------------------------------------------- the object

  class ProcScheme {
    var procs: map<Pid, Process>
    var groups: map<Pid, seq<Pid>>
    var nextId: Pid
    var nextInternal: nat
    var states: map<VirtualId, PendingState>
    /** The queue being worked off, and the one that steps push to. */
    var awoken: seq<VirtualId>
    var newAwoken: seq<VirtualId>

    ghost function Model(): State
      reads this
    {
      State(procs, groups, nextId, nextInternal, states, awoken + newAwoken)
    }

    /** The manager right after init has been claimed. */
    constructor (tid: Tid)
      ensures Model() == Claimed(tid)
    {
      procs := map[INIT := Process({tid}, INIT, INIT, INIT, 0, 0, PossiblyRunnable, false, [], map[], [], false)];
      groups := map[INIT := [INIT]];
      nextId, nextInternal := 2, 1;
      states, awoken, newAwoken := map[], [], [];
    }

    method Fork(parent: Pid, tid: Tid) returns (child: Option<Pid>)
      modifies this
      ensures Model() == M.Fork(old(Model()), parent, tid)
      ensures child == if parent in old(procs) then Some(old(nextId)) else None
    {
      var childPid := nextId;
      nextId := nextId + 1;
      if parent !in procs { return None; }
      var q := procs[parent];
      if q.pgid in groups {
        groups := groups[q.pgid := groups[q.pgid] + [childPid]];
      }
      procs := procs[childPid := Process({tid}, parent, q.pgid, q.sid, q.ruid, q.euid, PossiblyRunnable, false, [], map[], [], false)];
      child := Some(childPid);
    }

    method NewThread(pid: Pid, tid: Tid) returns (ok: bool)
      modifies this
      ensures Model() == M.NewThread(old(Model()), pid, tid) && ok == (pid in old(procs))
    {
      ok := pid in procs;
      if ok { procs := procs[pid := procs[pid].(threads := procs[pid].threads + {tid})]; }
    }

    method WakeWaiters(p: Pid)
      requires p in procs
      modifies this`procs, this`newAwoken
      ensures Model() == Drain(old(Model()), p)
    {
      newAwoken := newAwoken + procs[p].waitpidWaiting;
      procs := procs[p := procs[p].(waitpidWaiting := [])];
      assert Model().awoken == old(Model()).awoken + old(procs)[p].waitpidWaiting;
    }

    /** Files a record with `parent` under its child's key and wakes the parent's waiters. */
    method FileRecord(parent: Pid, child: Pid, pgid: Pid, st: WaitpidStatus)
      requires parent in procs
      modifies this`procs, this`newAwoken
      ensures Model() == Report(old(Model()), parent, child, pgid, st)
    {
      procs := procs[parent := procs[parent].(waitpid := Insert(procs[parent].waitpid, child, pgid, st))];
      WakeWaiters(parent);
    }

    /** Looks at every member still in the table and at its parent. */
    method PgrpIsOrphaned(g: Pid) returns (r: Option<bool>)
      ensures r == M.PgrpIsOrphaned(Model(), g)
    {
      if g !in groups { return None; }
      var stillTrue := true;
      for i := 0 to |groups[g]|
        invariant stillTrue == forall k | 0 <= k < i :: !Anchors(Model(), groups[g][k])
      {
        var m := groups[g][i];
        if m in procs && procs[m].ppid in procs {
          var parent := procs[procs[m].ppid];
          stillTrue := stillTrue && (parent.pgid == procs[m].pgid || parent.sid != procs[m].sid);
        }
      }
      r := Some(stillTrue);
      assert stillTrue == forall m | m in groups[g] :: !Anchors(Model(), m);
    }

    method SendSig(caller: Pid, target: Pid, sig: nat, willStop: bool) returns (err: Option<Errno>)
      modifies this`procs, this`newAwoken
      ensures (Model(), err) == M.SendSig(old(Model()), caller, target, sig, willStop)
      decreases if sig == SIGCHLD then 0 else 1, 0
    {
      if sig > 64 { return Some(EINVAL); }
      if target !in procs || caller !in procs { return Some(ESRCH); }
      var c, t := procs[caller], procs[target];
      if c.euid != 0 && c.euid != t.ruid && c.ruid != t.ruid { return Some(EPERM); }
      if sig == 0 || t.status.Ending() { return None; }
      if !t.sigPctl { return Some(ESRCH); }
      if sig == SIGCONT && t.status.Stopped? {
        procs := procs[target := t.(status := PossiblyRunnable)];
        err := Notify(target, t.ppid, t.pgid, Continued);
      } else if sig == SIGSTOP || (ConditionalStop(sig) && willStop) {
        if ConditionalStop(sig) {
          var orphaned := PgrpIsOrphaned(t.pgid);
          if orphaned.None? || orphaned.value { return None; }
        }
        procs := procs[target := t.(status := Stopped(sig))];
        err := Notify(target, t.ppid, t.pgid, StoppedBy(sig));
      } else {
        err := None;
      }
    }

    method Notify(target: Pid, ppid: Pid, pgid: Pid, st: WaitpidStatus) returns (err: Option<Errno>)
      modifies this`procs, this`newAwoken
      ensures (Model(), err) == M.Notify(old(Model()), target, ppid, pgid, st)
      decreases 0, 1
    {
      if ppid !in procs { return Some(ESRCH); }
      FileRecord(ppid, target, pgid, st);
      if ppid != INIT {
        var ignored := SendSig(INIT, ppid, SIGCHLD, false);
      }
      err := None;
    }

    /** Walks the whole table and hands the children of `cur` to init. */
    method ReparentChildren(cur: Pid) returns (ghost order: seq<Pid>)
      requires INIT in procs
      modifies this`procs
      ensures Model() == Reparent(old(Model()), cur, order)
      ensures forall p | p in old(procs) :: p in order
    {
      var todo := procs.Keys;
      order := [];
      while todo != {}
        invariant Model() == Reparent(old(Model()), cur, order)
        invariant todo <= procs.Keys
        invariant forall p | p in old(procs) :: p in todo || p in order
        decreases todo
      {
        var p :| p in todo;
        todo := todo - {p};
        ReparentSnoc(old(Model()), cur, order, p);
        order := order + [p];
        if p != INIT && procs[p].ppid == cur {
          var records := procs[p].waitpid;
          procs := procs[p := procs[p].(ppid := INIT, waitpid := map[])];
          procs := procs[INIT := procs[INIT].(waitpid := procs[INIT].waitpid + records)];
        }
      }
    }

    /** The orphan state of the groups of `cur` and of its children, before they move. */
    method SampleGroups(cur: Pid) returns (was: map<Pid, Option<bool>>)
      requires cur in procs
      ensures forall g :: g in was <==> Affected(Model(), cur, g)
      ensures forall g | g in was :: was[g] == M.PgrpIsOrphaned(Model(), g)
    {
      var own := PgrpIsOrphaned(procs[cur].pgid);
      was := map[procs[cur].pgid := own];
      var todo := procs.Keys;
      while todo != {}
        invariant todo <= procs.Keys
        invariant forall g | g in was :: Affected(Model(), cur, g) && was[g] == M.PgrpIsOrphaned(Model(), g)
        invariant procs[cur].pgid in was
        invariant forall p | p in procs && p !in todo && IsChild(Model(), p, cur) :: procs[p].pgid in was
        decreases todo
      {
        var p :| p in todo;
        todo := todo - {p};
        if p != INIT && procs[p].ppid == cur {
          var orphaned := PgrpIsOrphaned(procs[p].pgid);
          was := was[procs[p].pgid := orphaned];
          assert IsChild(Model(), p, cur);
        }
      }
    }

    method RouseMembers(members: seq<Pid>)
      modifies this`procs, this`newAwoken
      ensures Model() == RouseAll(old(Model()), members)
    {
      for i := 0 to |members|
        invariant Model() == RouseAll(old(Model()), members[..i])
      {
        RouseAllSnoc(old(Model()), members[..i], members[i]);
        assert members[..i + 1] == members[..i] + [members[i]];
        if members[i] in procs && procs[members[i]].status.Stopped? {
          var cont := SendSig(INIT, members[i], SIGCONT, false);
          var hup := SendSig(INIT, members[i], SIGHUP, false);
        }
      }
      assert members[..|members|] == members;
    }

    /** Visits the sampled groups and rouses those the reparenting orphaned. */
    method RouseNewOrphans(cur: Pid, was: map<Pid, Option<bool>>, ghost before: State) returns (ghost order: seq<Pid>)
      requires forall g :: g in was <==> Affected(before, cur, g)
      requires forall g | g in was :: was[g] == M.PgrpIsOrphaned(before, g)
      modifies this`procs, this`newAwoken
      ensures Model() == RouseOrphans(old(Model()), before, cur, order)
      ensures forall g | g in was :: g in order
    {
      var todo := was.Keys;
      order := [];
      while todo != {}
        invariant Model() == RouseOrphans(old(Model()), before, cur, order)
        invariant todo <= was.Keys
        invariant forall g | g in was :: g in todo || g in order
        decreases todo
      {
        var g :| g in todo;
        todo := todo - {g};
        RouseOrphansSnoc(old(Model()), before, cur, order, g);
        order := order + [g];
        var orphaned := PgrpIsOrphaned(g);
        if was[g] != Some(true) && orphaned == Some(true) {
          RouseMembers(groups[g]);
        }
      }
    }

    method Disown(cur: Pid) returns (ghost order: Order)
      requires cur in procs && INIT in procs
      modifies this`procs, this`newAwoken
      ensures Model() == M.Disown(old(Model()), cur, order)
      ensures Covers(old(Model()), cur, order)
    {
      WakeWaiters(INIT);
      ghost var before := Model();
      var was := SampleGroups(cur);
      ghost var kids := ReparentChildren(cur);
      ghost var pgrps := RouseNewOrphans(cur, was, before);
      order := Order(kids, pgrps);
      SameWalk(old(Model()), before, cur, order);
    }

    /** The last thread is gone: the process has exited, its parent and its children are told. */
    method Complete(id: VirtualId, pid: Pid) returns (ghost order: Order)
      requires pid in procs && procs[pid].status.Exiting?
      modifies this`procs, this`newAwoken, this`states
      ensures Model() == M.Complete(old(Model()), id, pid, order)
      ensures Covers(old(Model()), pid, order)
    {
      ghost var s0 := Model();
      states := states - {id};
      var q := procs[pid];
      procs := procs[pid := q.(status := Exited(q.status.fate))];
      ghost var s1 := Model();
      order := Order([], []);
      if q.ppid in procs {
        var ignored := SendSig(pid, q.ppid, SIGCHLD, false);
        ProcFrame.SigchldIsQuiet(s1, pid, q.ppid, false);
        if INIT in procs { order := Disown(pid); }
        FileRecord(q.ppid, pid, q.pgid, Terminated(q.status.fate));
      }
      order := WidenWalk(s0, s1, pid, order);
    }

    // -------------------------------------------------------------- waitpid

    method Reap(pid: Pid)
      modifies this`procs, this`groups
      ensures Model() == M.Reap(old(Model()), pid)
    {
      if pid !in procs || procs[pid].threads != {} { return; }
      var g := procs[pid].pgid;
      procs := procs - {pid};
      if g !in groups { return; }
      var rest := Without(groups[g], pid);
      if rest == [] { groups := groups - {g}; } else { groups := groups[g := rest]; }
    }

    method OnWaitpid(w: Pid, target: WaitpidTarget, flags: WaitFlags, id: VirtualId, hit: Option<Pid>) returns (r: Poll)
      modifies this`procs, this`groups
      ensures (Model(), r) == M.OnWaitpid(old(Model()), w, target, flags, id, hit)
    {
      var refusal := Refusal(w, target);
      if refusal.Some? { return Ready(Failed(refusal.value)); }
      var news: Option<(Pid, WaitpidStatus)> := None;
      if target.SingleProc? && procs[target.pid].status.Exited? {
        news := Some((target.pid, Terminated(procs[target.pid].status.fate)));
      } else {
        var found := Select(procs[w].waitpid, target, procs[w].pgid, hit);
        if found.Some? { news := Some((found.value, procs[w].waitpid[found.value].status)); }
      }
      if news.Some? {
        var (k, st) := news.value;
        procs := procs[w := procs[w].(waitpid := procs[w].waitpid - {k})];
        match st
        case Continued => r := if flags.continued then Ready(Done(k, StatusWord(st))) else Pending;
        case StoppedBy(_) => r := if flags.untraced then Ready(Done(k, StatusWord(st))) else Pending;
        case Terminated(_) =>
          Reap(k);
          r := Ready(Done(k, StatusWord(st)));
      } else if flags.nohang {
        r := Ready(Done(0, 0));
      } else {
        procs := procs[w := procs[w].(waitpidWaiting := procs[w].waitpidWaiting + [id])];
        r := Pending;
      }
    }

    /** Searches the table for a child where the call needs one. */
    method Refusal(w: Pid, target: WaitpidTarget) returns (err: Option<Errno>)
      ensures err == WaitpidRefusal(Model(), w, target)
    {
      if target.AnyChild? || target.AnyGroupMember? {
        var found := AnyChildOf(procs.Keys, w);
        if !found { return Some(ECHILD); }
      }
      if w !in procs { return Some(EBADFD); }
      match target {
      case SingleProc(pid) =>
        if pid == w { return Some(EINVAL); }
        if pid !in procs || procs[pid].ppid != w { return Some(ECHILD); }
      case ProcGroup(g) =>
        if g !in groups { return Some(ECHILD); }
        var found := false;
        for i := 0 to |groups[g]|
          invariant found <==> exists k | 0 <= k < i :: groups[g][k] in procs && groups[g][k] != w && procs[groups[g][k]].ppid == w
        {
          var m := groups[g][i];
          if m in procs && m != w && procs[m].ppid == w { found := true; }
        }
        if !found { return Some(ECHILD); }
        assert exists m | m in groups[g] :: m in procs && m != w && procs[m].ppid == w;
      case _ =>
      }
      err := None;
    }

    method AnyChildOf(ps: set<Pid>, w: Pid) returns (found: bool)
      requires ps <= procs.Keys
      ensures found <==> exists p | p in ps :: procs[p].ppid == w
    {
      var todo := ps;
      found := false;
      while todo != {} && !found
        invariant todo <= ps
        invariant found ==> exists p | p in ps :: procs[p].ppid == w
        invariant !found ==> forall p | p in ps && p !in todo :: procs[p].ppid != w
        decreases todo
      {
        var p :| p in todo;
        todo := todo - {p};
        if procs[p].ppid == w { found := true; }
      }
    }

    // -------------------------------------------------------------- suspended requests

    method WorkOn(id: VirtualId, hit: Option<Pid>) returns (r: Poll, ghost order: Order)
      requires id in states
      modifies this
      ensures (Model(), r) == M.WorkOn(old(Model()), id, order, hit)
      ensures awoken == old(awoken)
      ensures old(states)[id].AwaitingThreadsTermination? ==> Covers(old(Model()), old(states)[id].pid, order)
    {
      ghost var s0 := Model();
      match states[id]
      case Placeholder =>
        r, order := Pending, Order([], []);
      case AwaitingThreadsTermination(pid, tag) =>
        if pid in procs && procs[pid].threads != {} {
          procs := procs[pid := procs[pid].(awaitingThreadsTerm := procs[pid].awaitingThreadsTerm + [id])];
          r := Pending;
          order := AnyWalk(s0, pid);
        } else if pid in procs && procs[pid].status.Exiting? {
          order := Complete(id, pid);
          r := Answer(tag, Done(0, 0));
        } else {
          var exited := pid in procs && procs[pid].status.Exited?;
          if tag { states := states[id := Placeholder]; } else { states := states - {id}; }
          r := Answer(tag, if exited then Done(0, 0) else Failed(ESRCH));
          order := AnyWalk(s0, pid);
        }
      case AwaitingStatusChange(w, target, flags) =>
        r := OnWaitpid(w, target, flags, id, hit);
        if r.Ready? { states := states[id := Placeholder]; }
        order := Order([], []);
    }

    // -------------------------------------------------------------- requests

    /** Moves `pid` between groups after waking whoever waits for it by group. */
    method SetPgid(pid: Pid, newPgid: Pid) returns (err: Option<Errno>)
      requires pid in procs
      modifies this`procs, this`groups, this`newAwoken
      ensures (Model(), err) == M.SetPgid(old(Model()), pid, newPgid)
    {
      var oldPgid := procs[pid].pgid;
      if procs[pid].ppid != pid && procs[pid].ppid in procs { WakeWaiters(procs[pid].ppid); }
      if oldPgid !in groups { return Some(ESRCH); }
      var rest := Without(groups[oldPgid], pid);
      groups := if rest == [] then groups - {oldPgid} else groups[oldPgid := rest];
      groups := groups[newPgid := (if newPgid in groups then groups[newPgid] else []) + [pid]];
      procs := procs[pid := procs[pid].(pgid := newPgid)];
      err := None;
    }

    method OnSetpgid(caller: Pid, target: Pid, newPgid: Pid) returns (err: Option<Errno>)
      modifies this`procs, this`groups, this`newAwoken
      ensures (Model(), err) == M.Setpgid(old(Model()), caller, target, newPgid)
    {
      if caller !in procs || target !in procs { return Some(ESRCH); }
      var q := procs[target];
      if q.ppid != caller && target != caller { return Some(ESRCH); }
      if q.ppid != target && q.ppid !in procs { return Some(ESRCH); }
      if q.sid == target { return Some(EPERM); }
      if procs[caller].sid != q.sid { return Some(EPERM); }
      if newPgid != target && newPgid !in groups { return Some(EPERM); }
      if q.ppid == caller && q.disabledSetpgid { return Some(EACCES); }
      if q.pgid == newPgid { return None; }
      err := SetPgid(target, newPgid);
    }

    method OnSetsid(caller: Pid) returns (err: Option<Errno>)
      modifies this`procs, this`groups, this`newAwoken
      ensures (Model(), err) == M.Setsid(old(Model()), caller)
    {
      var todo := procs.Keys;
      while todo != {}
        invariant todo <= procs.Keys && Model() == old(Model())
        invariant forall p | p in procs && p !in todo :: p == caller || procs[p].pgid != caller
        decreases todo
      {
        var p :| p in todo;
        todo := todo - {p};
        if p != caller && procs[p].pgid == caller { return Some(EPERM); }
      }
      if caller !in procs { return Some(ESRCH); }
      if procs[caller].ppid == caller { return Some(ESRCH); }
      if procs[caller].pgid == caller { return Some(EPERM); }
      err := SetPgid(caller, caller);
      if err.Some? { return; }
      procs := procs[caller := procs[caller].(sid := caller)];
    }

    /** Marks `pid` exiting and suspends the request until its threads are gone. */
    method Arm(id: VirtualId, pid: Pid, fate: Fate, tag: bool)
      requires pid in procs
      modifies this`procs, this`states
      ensures Model() == Armed(old(Model()), id, pid, fate, tag)
    {
      procs := procs[pid := procs[pid].(status := Exiting(fate))];
      if procs[pid].threads != {} {
        procs := procs[pid := procs[pid].(awaitingThreadsTerm := procs[pid].awaitingThreadsTerm + [id])];
      }
      states := states[id := AwaitingThreadsTermination(pid, tag)];
    }

    method OnExitStart(id: VirtualId, pid: Pid, raw: nat, tag: bool) returns (r: Poll, ghost order: Order)
      modifies this
      ensures (Model(), r) == ExitStart(old(Model()), id, pid, raw, tag, order)
      ensures awoken == old(awoken) && Covers(old(Model()), pid, order)
    {
      ghost var s0 := Model();
      order := AnyWalk(s0, pid);
      if pid !in procs { return Answer(tag, Failed(EBADFD)), order; }
      if procs[pid].status.Exiting? { return Answer(tag, Failed(EAGAIN)), order; }
      if procs[pid].status.Exited? { return Answer(tag, Failed(ESRCH)), order; }
      var fate := DecodeExit(raw);
      if fate.None? { return Answer(tag, Failed(EINVAL)), order; }
      Arm(id, pid, fate.value, tag);
      ghost var s1 := Model();
      r, order := WorkOn(id, None);
      SameWalk(s0, s1, pid, order);
    }

    method OnThreadDeath(pid: Pid, tid: Tid, raw: nat) returns (ghost order: Order)
      modifies this
      ensures Model() == ThreadDeath(old(Model()), pid, tid, raw, order)
      ensures awoken == old(awoken) && Covers(old(Model()), pid, order)
    {
      ghost var s0 := Model();
      order := AnyWalk(s0, pid);
      if pid !in procs || tid !in procs[pid].threads { return; }
      procs := procs[pid := procs[pid].(threads := procs[pid].threads - {tid})];
      if procs[pid].status.Exiting? {
        newAwoken := newAwoken + procs[pid].awaitingThreadsTerm;
        procs := procs[pid := procs[pid].(awaitingThreadsTerm := [])];
        assert awoken + newAwoken == s0.awoken + s0.procs[pid].awaitingThreadsTerm;
      } else if procs[pid].threads == {} {
        var id := InternalId(nextInternal);
        nextInternal := nextInternal + 1;
        ghost var s1 := Model();
        assert s1 == Bumped(DropThread(s0, pid, tid));
        if id !in states {
          var r;
          r, order := OnExitStart(id, pid, raw, false);
          SameWalk(s0, s1, pid, order);
        }
        assert Model() == LastThread(s1, id, pid, raw, order);
      }
    }

    method OnCancel(n: nat) returns (r: Poll)
      modifies this
      ensures (Model(), r) == M.Cancel(old(Model()), n)
    {
      var id := KernelId(n);
      if id !in states { return Pending; }
      var state := states[id];
      states := states - {id};
      match state
      case AwaitingStatusChange(_, _, _) =>
        r := Ready(Failed(ECANCELED));
      case AwaitingThreadsTermination(pid, tag) =>
        var vid := InternalId(nextInternal);
        nextInternal := nextInternal + 1;
        states := states[vid := AwaitingThreadsTermination(pid, false)];
        newAwoken := newAwoken + [vid];
        assert awoken + newAwoken == old(awoken + newAwoken) + [vid];
        r := Answer(tag, Failed(ECANCELED));
      case Placeholder =>
        r := Pending;
    }

    method OnWaitpidCall(n: nat, caller: Pid, target: WaitpidTarget, flags: WaitFlags, hit: Option<Pid>) returns (r: Poll)
      modifies this
      ensures forall order :: (Model(), r) == M.OnCall(old(Model()), n, caller, Waitpid(target, flags), order, hit)
    {
      states := states - {KernelId(n)};
      states := states[KernelId(n) := AwaitingStatusChange(caller, target, flags)];
      ghost var order;
      r, order := WorkOn(KernelId(n), hit);
    }

    /** One request off the queue. */
    method Turn(hit: Option<Pid>) returns (reply: Poll, ghost i: Input)
      requires awoken != []
      modifies this
      ensures i.event.WakeEvent? && WalksAll(old(Model()), i)
      ensures (Model(), reply) == Step(old(Model()), WakeEvent, i.order, i.hit)
      ensures awoken == old(awoken)[1..]
    {
      ghost var s := Model();
      var id := awoken[0];
      awoken := awoken[1..];
      assert Model() == s.(awoken := s.awoken[1..]);
      ghost var order := Order([], []);
      reply := Pending;
      if id in states {
        ghost var s1 := Model();
        reply, order := WorkOn(id, hit);
        if s.states[id].AwaitingThreadsTermination? { SameWalk(s, s1, s.states[id].pid, order); }
      }
      i := Input(WakeEvent, order, hit);
    }

    /** Works off the first queue, continuing a run that has come to the present state. */
    method DrainFirst(hits: seq<Option<Pid>>, ghost start: State, before: seq<Poll>, ghost sofar: seq<Input>)
      returns (replies: seq<Poll>, ghost ins: seq<Input>)
      requires awoken != [] && Drained(start, sofar, before, Model())
      modifies this
      ensures awoken == [] && Drained(start, ins, replies, Model()) && Below(Model(), old(Model()))
    {
      replies, ins := before, sofar;
      while awoken != []
        invariant Drained(start, ins, replies, Model())
        invariant Below(Model(), old(Model())) || (Model() == old(Model()) && awoken != [])
        decreases |ProcDrain.ExitingSet(Model())|, |awoken + newAwoken|
      {
        ghost var now := Model();
        var hit := if |replies| < |hits| then hits[|replies|] else None;
        var reply; ghost var i;
        reply, i := Turn(hit);
        ProcDrain.WakeProgress(now, i.order, i.hit);
        DrainedSnoc(start, ins, replies, now, i, reply);
        replies, ins := replies + [reply], ins + [i];
      }
    }

    /** Works off both queues; what a step wakes is queued behind what is already there. */
    method DrainAwoken(hits: seq<Option<Pid>>) returns (replies: seq<Poll>, ghost ins: seq<Input>)
      modifies this
      ensures awoken == [] && newAwoken == []
      ensures Drained(old(Model()), ins, replies, Model())
    {
      replies, ins := [], [];
      while awoken != [] || newAwoken != []
        invariant Drained(old(Model()), ins, replies, Model())
        decreases |ProcDrain.ExitingSet(Model())|, |awoken + newAwoken|
      {
        ghost var s := Model();
        awoken, newAwoken := awoken + newAwoken, [];
        assert Model() == s;
        replies, ins := DrainFirst(hits, old(Model()), replies, ins);
      }
    }
  }

  // ---------------------------------------------------------------- runs of turns

  /** Fewer exiting processes, or as many and a shorter queue. */
  ghost predicate Below(t: State, s: State) {
    || |ProcDrain.ExitingSet(t)| < |ProcDrain.ExitingSet(s)|
    || (|ProcDrain.ExitingSet(t)| == |ProcDrain.ExitingSet(s)| && |t.awoken| < |s.awoken|)
  }

  /** The turns `ins` lead from `start` to `now`, giving these replies. */
  ghost predicate Drained(start: State, ins: seq<Input>, replies: seq<Poll>, now: State) {
    && ProcDrain.OnlyWakes(ins)
    && now == Run(start, ins)
    && Along(start, ins, WalksAll)
    && |replies| == |ins|
    && forall k | 0 <= k < |ins| :: replies[k] == Step(Run(start, ins[..k]), WakeEvent, ins[k].order, ins[k].hit).1
  }

  lemma DrainedSnoc(start: State, ins: seq<Input>, replies: seq<Poll>, now: State, i: Input, reply: Poll)
    requires Drained(start, ins, replies, now) && i.event.WakeEvent? && WalksAll(now, i)
    requires reply == Step(now, WakeEvent, i.order, i.hit).1
    ensures Drained(start, ins + [i], replies + [reply], Next(now, i))
  {
    RunSnoc(start, ins, i);
    AlongSnoc(start, ins, i, WalksAll);
    forall k | 0 <= k < |ins + [i]|
      ensures (replies + [reply])[k] == Step(Run(start, (ins + [i])[..k]), WakeEvent, (ins + [i])[k].order, (ins + [i])[k].hit).1
    {
      assert (ins + [i])[..k] == ins[..k];
      if k == |ins| { assert ins[..k] == ins; }
    }
  }

  lemma {:induction false} RunSnoc(s: State, ins: seq<Input>, i: Input)
    ensures Run(s, ins + [i]) == Next(Run(s, ins), i)
    decreases ins
  {
    if ins == [] {
      assert ([] + [i])[1..] == [];
      var t := Run(s, [i]);
    } else {
      assert (ins + [i])[1..] == ins[1..] + [i];
      RunSnoc(Next(s, ins[0]), ins[1..], i);
    }
  }

  lemma {:induction false} AlongSnoc(s: State, ins: seq<Input>, i: Input, ok: (State, Input) -> bool)
    requires Along(s, ins, ok) && ok(Run(s, ins), i)
    ensures Along(s, ins + [i], ok)
    decreases ins
  {
    if ins == [] {
      assert ([] + [i])[1..] == [];
    } else {
      assert (ins + [i])[1..] == ins[1..] + [i];
      AlongSnoc(Next(s, ins[0]), ins[1..], i, ok);
    }
  }
}
