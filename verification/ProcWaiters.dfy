/** No waiter is lost, and no pending waiter sleeps through news it asked for. */
module ProcWaiters {
  import opened Prelude
  import opened ProcModel
  import opened ProcFrame
  import opened ProcRuns
  import ProcPids
  import opened ProcGroups
  import opened ProcSessions

  /** A suspended waitpid call that reports every kind of news. */
  ghost predicate Patient(s: State, id: VirtualId) {
    && id in s.states
    && s.states[id].AwaitingStatusChange?
    && s.states[id].flags.untraced
    && s.states[id].flags.continued
  }

  /** `c` is a child of `w` that has exited and still awaits being reaped. */
  ghost predicate Zombie(s: State, c: Pid, w: Pid) {
    c in s.procs && s.procs[c].ppid == w && s.procs[c].status.Exited?
  }

  /** A record filed with `q` carries the group id. */
  ghost predicate GroupNews(q: Process, g: Pid) {
    exists k | k in q.waitpid :: q.waitpid[k].pgid == g
  }

  /** The search by group id does not miss: a group with a record has one come back. */
  ghost predicate Finds(q: Process, g: Pid, hit: Option<Pid>) {
    GroupNews(q, g) ==> hit.Some? && hit.value in q.waitpid && q.waitpid[hit.value].pgid == g
  }

  /** Which calls that wait for a group are meant: those that name one, those for the waiter's own. */
  datatype Scope = Scope(groups: bool, own: bool)

  ghost predicate SharpHit(s: State, id: VirtualId, hit: Option<Pid>, scope: Scope)
    requires id in s.states && s.states[id].AwaitingStatusChange?
  {
    var AwaitingStatusChange(w, target, _) := s.states[id];
    w in s.procs ==>
      && (scope.groups && target.ProcGroup? ==> Finds(s.procs[w], target.pgid, hit))
      && (scope.own && target.AnyGroupMember? ==> Finds(s.procs[w], s.procs[w].pgid, hit))
  }

  ghost predicate Sharp(s: State, i: Input, scope: Scope) {
    var look := Examined(s, i.event);
    look.Some? ==> SharpHit(look.value.0, look.value.1, i.hit, scope)
  }

  ghost predicate SharpProbe(s: State, i: Input) { Sharp(s, i, Scope(true, false)) }

  ghost predicate SharpOwnProbe(s: State, i: Input) { Sharp(s, i, Scope(false, true)) }

  /** Nothing that a call with this target would report is at hand, as far as the scope goes. */
  ghost predicate NoNews(s: State, w: Pid, target: WaitpidTarget, scope: Scope)
    requires w in s.procs
  {
    match target
    case AnyChild => s.procs[w].waitpid == map[]
    case SingleProc(c) => c !in s.procs[w].waitpid && !Zombie(s, c, w)
    case ProcGroup(g) => scope.groups ==> !GroupNews(s.procs[w], g)
    case AnyGroupMember => scope.own ==> !GroupNews(s.procs[w], s.procs[w].pgid)
  }

  /** The call is on the wake queue, or listed with its waiter while there is no news. */
  ghost predicate Attended(s: State, id: VirtualId, scope: Scope)
    requires Patient(s, id)
  {
    var w := s.states[id].waiter;
    w in s.procs ==> id in s.awoken || (id in s.procs[w].waitpidWaiting && NoNews(s, w, s.states[id].target, scope))
  }

  ghost predicate WaitersAttended(s: State, scope: Scope) {
    forall id {:trigger Attended(s, id, scope)} | Patient(s, id) :: Attended(s, id, scope)
  }

  ghost predicate WaitersAttendedBut(s: State, id: VirtualId, scope: Scope) {
    forall other {:trigger Attended(s, other, scope)} | Patient(s, other) && other != id :: Attended(s, other, scope)
  }

  // ---------------------------------------------------------------- frames

  /** Across the step, `w` either wakes all its waiters or gains no news. */
  ghost predicate Prompt(s: State, t: State, w: Pid)
    requires w in t.procs
  {
    && w in s.procs
    && (forall id | id in s.procs[w].waitpidWaiting :: id in t.procs[w].waitpidWaiting || id in t.awoken)
    && (|| t.procs[w].waitpidWaiting == []
        || (NoNewKeys(s.procs[w], t.procs[w]) && forall c | Zombie(t, c, w) :: Zombie(s, c, w)))
  }

  /** Whoever may be in another group now, and waits for its own, has no record of that group. */
  ghost predicate OwnGroupsOk(s: State, t: State) {
    forall id | Patient(t, id) && t.states[id].target.AnyGroupMember? && id !in t.awoken ::
      var w := t.states[id].waiter;
      w in t.procs && w in s.procs && t.procs[w].pgid != s.procs[w].pgid ==> !GroupNews(t.procs[w], t.procs[w].pgid)
  }

  lemma StillAttended(s: State, t: State, id: VirtualId, scope: Scope)
    requires Patient(s, id) && Attended(s, id, scope) && Patient(t, id) && t.states[id] == s.states[id]
    requires id in s.awoken ==> id in t.awoken
    requires s.states[id].waiter in t.procs ==> Prompt(s, t, s.states[id].waiter)
    requires scope.own ==> OwnGroupsOk(s, t)
    ensures Attended(t, id, scope)
  {}

  lemma PromptKeeps(s: State, t: State, scope: Scope)
    requires WaitersAttended(s, scope) && (scope.own ==> OwnGroupsOk(s, t))
    requires forall id | Patient(t, id) :: id in s.states && s.states[id] == t.states[id]
    requires forall id | id in s.awoken :: id in t.awoken
    requires forall w {:trigger Prompt(s, t, w)} | w in t.procs :: w in s.procs ==> Prompt(s, t, w)
    requires forall w | w in t.procs && w !in s.procs :: forall id | Patient(s, id) :: s.states[id].waiter != w
    ensures WaitersAttended(t, scope)
  {
    forall id | Patient(t, id) ensures Attended(t, id, scope) {
      assert Patient(s, id) && Attended(s, id, scope);
      var w := s.states[id].waiter;
      if w in t.procs { assert Prompt(s, t, w); StillAttended(s, t, id, scope); }
    }
  }

  lemma CalmPrompt(s: State, t: State, w: Pid)
    requires Calm(s, t) && w in t.procs
    ensures Prompt(s, t, w)
  {
    assert CalmProc(s, t, w);
    forall c | Zombie(t, c, w) && t.procs[w].waitpidWaiting != [] ensures Zombie(s, c, w) { assert CalmProc(s, t, c); }
  }

  lemma CalmKeeps(s: State, t: State, scope: Scope)
    requires WaitersAttended(s, scope) && Calm(s, t)
    ensures WaitersAttended(t, scope)
  {
    forall w | w in t.procs ensures Prompt(s, t, w) && t.procs[w].pgid == s.procs[w].pgid {
      CalmPrompt(s, t, w);
      assert CalmProc(s, t, w);
    }
    PromptKeeps(s, t, scope);
  }

  lemma WaitedPrompt(s: State, t: State, id: VirtualId, w: Pid)
    requires Waited(s, t, id) && w in t.procs
    ensures Prompt(s, t, w)
  {
    assert WaitedProc(s, t, w, id);
    forall c | Zombie(t, c, w) ensures Zombie(s, c, w) { assert WaitedProc(s, t, c, id); }
  }

  // ---------------------------------------------------------------- steps

  /** A completed exit either wakes the parent's waiters or has no parent to tell. */
  lemma CompletePrompt(s: State, id: VirtualId, pid: Pid, order: Order, w: Pid)
    requires pid in s.procs && s.procs[pid].status.Exiting? && w in Complete(s, id, pid, order).procs
    ensures Prompt(s, Complete(s, id, pid, order), w)
    ensures Complete(s, id, pid, order).procs[w].pgid == s.procs[w].pgid
  {
    var q := s.procs[pid];
    var s1 := Put(Forget(s, id), pid, q.(status := Exited(q.status.fate)));
    var t := Complete(s, id, pid, order);
    AfterExitShape(s1, pid, order);
    AfterExitCalm(s1, pid, order);
    assert CalmProc(s1, t, w);
    CalmPrompt(s1, t, w);
    if w == q.ppid {
      assert t.procs[w].waitpidWaiting == [];
    } else if t.procs[w].waitpidWaiting != [] {
      forall c | Zombie(t, c, w) ensures Zombie(s, c, w) { assert Zombie(s1, c, w) && c != pid; }
    }
  }

  lemma CompleteKeeps(s: State, id: VirtualId, pid: Pid, order: Order, scope: Scope)
    requires WaitersAttended(s, scope) && pid in s.procs && s.procs[pid].status.Exiting?
    ensures WaitersAttended(Complete(s, id, pid, order), scope)
  {
    var t := Complete(s, id, pid, order);
    var s1 := Put(Forget(s, id), pid, s.procs[pid].(status := Exited(s.procs[pid].status.fate)));
    AfterExitCalm(s1, pid, order);
    forall w | w in t.procs ensures Prompt(s, t, w) && t.procs[w].pgid == s.procs[w].pgid { CompletePrompt(s, id, pid, order, w); }
    PromptKeeps(s, t, scope);
  }

  /** A patient call that stays pending is registered, and had nothing to report. */
  lemma PatientRegisters(s: State, w: Pid, target: WaitpidTarget, flags: WaitFlags, id: VirtualId, hit: Option<Pid>, scope: Scope)
    requires flags.untraced && flags.continued && OnWaitpid(s, w, target, flags, id, hit).1.Pending?
    requires id in s.states && s.states[id] == AwaitingStatusChange(w, target, flags) && SharpHit(s, id, hit, scope)
    ensures w in s.procs && OnWaitpid(s, w, target, flags, id, hit).0 == Register(s, w, id)
    ensures NoNews(s, w, target, scope)
  {}

  /** The other calls do not notice. */
  lemma OthersAttended(s: State, t: State, id: VirtualId, other: VirtualId, scope: Scope)
    requires Waited(s, t, id) && Patient(s, other) && Attended(s, other, scope)
    ensures Attended(t, other, scope)
  {
    var w := s.states[other].waiter;
    if w in t.procs {
      WaitedPrompt(s, t, id, w);
      assert WaitedProc(s, t, w, id);
    }
  }

  lemma StatusChangeKeeps(s: State, id: VirtualId, order: Order, hit: Option<Pid>, scope: Scope)
    requires WaitersAttendedBut(s, id, scope) && id in s.states && s.states[id].AwaitingStatusChange?
    requires SharpHit(s, id, hit, scope)
    ensures WaitersAttended(WorkOn(s, id, order, hit).0, scope)
  {
    var AwaitingStatusChange(w, target, flags) := s.states[id];
    var (s1, r) := OnWaitpid(s, w, target, flags, id, hit);
    var t := WorkOn(s, id, order, hit).0;
    OnWaitpidFrame(s, w, target, flags, id, hit);
    forall other | Patient(t, other) ensures Attended(t, other, scope) {
      if other != id {
        assert Patient(s, other) && Attended(s, other, scope);
        OthersAttended(s, s1, id, other, scope);
      } else {
        PatientRegisters(s, w, target, flags, id, hit, scope);
        assert NoNews(t, w, target, scope);
      }
    }
  }

  lemma WorkOnKeeps(s: State, id: VirtualId, order: Order, hit: Option<Pid>, scope: Scope)
    requires WaitersAttendedBut(s, id, scope) && id in s.states
    requires s.states[id].AwaitingStatusChange? ==> SharpHit(s, id, hit, scope)
    ensures WaitersAttended(WorkOn(s, id, order, hit).0, scope)
  {
    if s.states[id].AwaitingStatusChange? {
      StatusChangeKeeps(s, id, order, hit, scope);
    } else {
      assert WaitersAttended(s, scope);
      var t := WorkOn(s, id, order, hit).0;
      if s.states[id].AwaitingThreadsTermination? && s.states[id].pid in s.procs
         && s.procs[s.states[id].pid].threads == {} && s.procs[s.states[id].pid].status.Exiting? {
        CompleteKeeps(s, id, s.states[id].pid, order, scope);
      } else {
        PromptKeeps(s, t, scope);
      }
    }
  }

  lemma ExitStartKeeps(s: State, id: VirtualId, pid: Pid, raw: nat, tag: bool, order: Order, scope: Scope)
    requires WaitersAttended(s, scope)
    ensures WaitersAttended(ExitStart(s, id, pid, raw, tag, order).0, scope)
  {
    if pid in s.procs && !s.procs[pid].status.Ending() && DecodeExit(raw).Some? {
      var s1 := Armed(s, id, pid, DecodeExit(raw).value, tag);
      PromptKeeps(s, s1, scope);
      WorkOnKeeps(s1, id, order, None, scope);
    }
  }

  lemma ThreadDeathKeeps(s: State, pid: Pid, tid: Tid, raw: nat, order: Order, scope: Scope)
    requires WaitersAttended(s, scope)
    ensures WaitersAttended(ThreadDeath(s, pid, tid, raw, order), scope)
  {
    if pid in s.procs && tid in s.procs[pid].threads {
      var s1 := DropThread(s, pid, tid);
      if s1.procs[pid].status.Exiting? || s1.procs[pid].threads != {} {
        PromptKeeps(s, ThreadDeath(s, pid, tid, raw, order), scope);
      } else {
        PromptKeeps(s, Bumped(s1), scope);
        ExitStartKeeps(Bumped(s1), InternalId(s.nextInternal), pid, raw, false, order, scope);
      }
    }
  }

  lemma PlainKeeps(s: State, t: State, scope: Scope)
    requires WaitersAttended(s, scope) && Plain(s, t) && (scope.own ==> OwnGroupsOk(s, t))
    ensures WaitersAttended(t, scope)
  {
    forall w | w in t.procs ensures Prompt(s, t, w) {
      assert PlainProc(s, t, w);
      forall c | Zombie(t, c, w) ensures Zombie(s, c, w) { assert PlainProc(s, t, c); }
    }
    PromptKeeps(s, t, scope);
  }

  // ---------------------------------------------------------------- changing groups

  /** What setsid demands. */
  ghost predicate MayLead(s: State, caller: Pid) {
    && caller in s.procs && s.procs[caller].ppid != caller && s.procs[caller].pgid != caller
    && forall p | p in s.procs && p != caller :: s.procs[p].pgid != caller
  }

  /** The process the call moves to another group, and that group. */
  ghost function Moving(s: State, caller: Pid, verb: Verb): (r: Option<(Pid, Pid)>)
    ensures r.Some? ==> r.value.0 in s.procs
  {
    match verb
    case SetpgidCall(m, g) => if Movable(s, caller, m, g) && s.procs[m].pgid != g then Some((m, g)) else None
    case SetsidCall => if MayLead(s, caller) then Some((caller, caller)) else None
    case _ => None
  }

  /** Those whom changing the group of `m` wakes. */
  ghost function Told(s: State, m: Pid): seq<VirtualId>
    requires m in s.procs
  {
    var p := s.procs[m].ppid;
    if p != m && p in s.procs then s.procs[p].waitpidWaiting else []
  }

  /** Across the step only `m` changes group, to `g`; its parent's waiters are woken. */
  ghost predicate Shifts(s: State, t: State, m: Pid, g: Pid) {
    && m in s.procs && t.procs.Keys == s.procs.Keys && t.states == s.states && t.awoken == s.awoken + Told(s, m)
    && (forall p | p in s.procs :: t.procs[p].waitpid == s.procs[p].waitpid)
    && (forall p | p in s.procs :: t.procs[p].pgid == if p == m then g else s.procs[p].pgid)
  }

  lemma SetPgidShifts(s: State, m: Pid, g: Pid)
    requires GroupsAgree(s) && m in s.procs && s.procs[m].pgid != g
    ensures SetPgid(s, m, g).1.None? && Shifts(s, SetPgid(s, m, g).0, m, g)
  {
    SetPgidKeeps(s, m, g);
  }

  /** Either the move, or nothing the waiters see. */
  ghost predicate MovesOr(s: State, t: State, move: Option<(Pid, Pid)>) {
    if move.Some? then Shifts(s, t, move.value.0, move.value.1)
    else t.procs == s.procs && t.states == s.states && t.awoken == s.awoken
  }

  lemma SetpgidShifts(s: State, caller: Pid, m: Pid, g: Pid)
    requires GroupsAgree(s)
    ensures MovesOr(s, Setpgid(s, caller, m, g).0, Moving(s, caller, SetpgidCall(m, g)))
  {
    GrantedIff(s, caller, m, g);
    if m in s.procs && s.procs[m].pgid != g { SetPgidShifts(s, m, g); }
  }

  lemma SetsidShifts(s: State, caller: Pid)
    requires GroupsAgree(s)
    ensures MovesOr(s, Setsid(s, caller).0, Moving(s, caller, SetsidCall))
  {
    if MayLead(s, caller) {
      SetPgidShifts(s, caller, caller);
      var s1 := SetPgid(s, caller, caller).0;
      assert Setsid(s, caller).0 == Put(s1, caller, s1.procs[caller].(sid := caller));
    } else {
      assert Setsid(s, caller).0 == s;
    }
  }

  /** Where the group index agrees, exactly the calls whose demands are met move somebody. */
  lemma MovingShifts(s: State, n: nat, caller: Pid, verb: Verb, order: Order, hit: Option<Pid>)
    requires GroupsAgree(s) && Forget(s, KernelId(n)) == s && (verb.SetpgidCall? || verb.SetsidCall?)
    ensures MovesOr(s, OnCall(s, n, caller, verb, order, hit).0, Moving(s, caller, verb))
  {
    if verb.SetpgidCall? { SetpgidShifts(s, caller, verb.member, verb.newPgid); } else { SetsidShifts(s, caller); }
  }

  /** A suspended call for the own group of `m` that changing the group of `m` does not wake. */
  ghost predicate Unroused(s: State, id: VirtualId, m: Pid)
    requires m in s.procs
  {
    && Patient(s, id) && s.states[id].target.AnyGroupMember? && s.states[id].waiter == m
    && id !in s.awoken && id !in Told(s, m)
  }

  /** The call moves a process to a group it holds a record of while such a call is suspended. */
  ghost predicate StraysCall(s: State, caller: Pid, verb: Verb) {
    var move := Moving(s, caller, verb);
    move.Some? && GroupNews(s.procs[move.value.0], move.value.1) && exists id :: Unroused(s, id, move.value.0)
  }

  ghost predicate Strays(s: State, i: Input) {
    i.event.Call? && StraysCall(Forget(s, KernelId(i.event.n)), i.event.caller, i.event.verb)
  }

  lemma ShiftsOk(s: State, t: State, m: Pid, g: Pid)
    requires Shifts(s, t, m, g) && !(GroupNews(s.procs[m], g) && exists id :: Unroused(s, id, m))
    ensures OwnGroupsOk(s, t)
  {
    forall id | Patient(t, id) && t.states[id].target.AnyGroupMember? && id !in t.awoken && t.states[id].waiter == m
      ensures !GroupNews(t.procs[m], g)
    {
      assert Unroused(s, id, m);
    }
  }

  lemma ShiftsStray(s: State, t: State, m: Pid, g: Pid, id: VirtualId, scope: Scope)
    requires Shifts(s, t, m, g) && GroupNews(s.procs[m], g) && Unroused(s, id, m) && scope.own
    ensures !WaitersAttended(t, scope)
  {
    assert Patient(t, id) && !Attended(t, id, scope);
  }

  /** What the scope asks of a call: sharp searches and, for own groups, nobody straying. */
  ghost predicate Safe(s: State, i: Input, scope: Scope) {
    Sharp(s, i, scope) && (scope.own ==> GroupsAgree(s) && !Strays(s, i))
  }

  lemma PlainCallOwn(s: State, n: nat, caller: Pid, verb: Verb, order: Order, hit: Option<Pid>)
    requires PlainVerb(verb) && GroupsAgree(s) && !StraysCall(Forget(s, KernelId(n)), caller, verb)
    ensures OwnGroupsOk(Forget(s, KernelId(n)), OnCall(s, n, caller, verb, order, hit).0)
  {
    var s0, t := Forget(s, KernelId(n)), OnCall(s, n, caller, verb, order, hit).0;
    SkeletonKeeps(s, s0);
    assert Forget(s0, KernelId(n)) == s0;
    if verb.SetpgidCall? || verb.SetsidCall? {
      assert t == OnCall(s0, n, caller, verb, order, hit).0;
      MovingShifts(s0, n, caller, verb, order, hit);
      var move := Moving(s0, caller, verb);
      if move.Some? { ShiftsOk(s0, t, move.value.0, move.value.1); }
    }
  }

  lemma OnCallKeeps(s: State, n: nat, caller: Pid, verb: Verb, order: Order, hit: Option<Pid>, scope: Scope)
    requires WaitersAttended(s, scope) && Safe(s, Input(Call(n, caller, verb), order, hit), scope)
    ensures WaitersAttended(OnCall(s, n, caller, verb, order, hit).0, scope)
  {
    var id := KernelId(n);
    var s0 := Forget(s, id);
    PromptKeeps(s, s0, scope);
    var t := OnCall(s, n, caller, verb, order, hit).0;
    match verb
    case Exit(raw) =>
      assert t == ExitStart(s0, id, caller, raw, true, order).0;
      ExitStartKeeps(s0, id, caller, raw, true, order, scope);
    case Waitpid(target, flags) =>
      var s1 := s0.(states := s0.states[id := AwaitingStatusChange(caller, target, flags)]);
      forall other | Patient(s1, other) && other != id ensures Attended(s1, other, scope) { assert Attended(s0, other, scope); }
      assert t == WorkOn(s1, id, order, hit).0;
      WorkOnKeeps(s1, id, order, hit, scope);
    case Kill(victim, sig, willStop) =>
      SendSigCalm(s0, caller, victim, sig, willStop);
      assert t == SendSig(s0, caller, victim, sig, willStop).0;
      CalmKeeps(s0, t, scope);
    case _ =>
      PlainCall(s, n, caller, verb, order, hit);
      if scope.own { PlainCallOwn(s, n, caller, verb, order, hit); }
      PlainKeeps(s0, t, scope);
  }

  lemma WakeKeeps(s: State, order: Order, hit: Option<Pid>, scope: Scope)
    requires WaitersAttended(s, scope) && s.awoken != [] && Sharp(s, Input(WakeEvent, order, hit), scope)
    ensures WaitersAttended(Wake(s, order, hit).0, scope)
  {
    var id, s1 := s.awoken[0], s.(awoken := s.awoken[1..]);
    forall other | Patient(s1, other) && other != id ensures Attended(s1, other, scope) { assert Attended(s, other, scope); }
    if id in s1.states { WorkOnKeeps(s1, id, order, hit, scope); } else { assert WaitersAttended(s1, scope); }
  }

  lemma ForkKeeps(s: State, parent: Pid, tid: Tid, scope: Scope)
    requires WaitersAttended(s, scope)
    requires s.nextId !in s.procs && forall id | Patient(s, id) :: s.states[id].waiter != s.nextId
    ensures WaitersAttended(Fork(s, parent, tid), scope)
  {
    PromptKeeps(s, Fork(s, parent, tid), scope);
  }

  lemma NextKeeps(s: State, i: Input, scope: Scope)
    requires WaitersAttended(s, scope) && ProcPids.PidsKnown(s) && Safe(s, i, scope)
    ensures WaitersAttended(Next(s, i), scope)
  {
    match i.event
    case ForkEvent(parent, tid) => ForkKeeps(s, parent, tid, scope);
    case ThreadEvent(pid, tid) => PromptKeeps(s, Next(s, i), scope);
    case Call(n, caller, verb) => OnCallKeeps(s, n, caller, verb, i.order, i.hit, scope);
    case CancelEvent(n) => PromptKeeps(s, Next(s, i), scope);
    case Death(pid, tid, raw) => ThreadDeathKeeps(s, pid, tid, raw, i.order, scope);
    case WakeEvent => if s.awoken != [] { WakeKeeps(s, i.order, i.hit, scope); }
  }

  /** What the scope asks of a whole run. */
  ghost predicate SafeRun(s: State, ins: seq<Input>, scope: Scope) {
    && (scope.groups ==> Along(s, ins, SharpProbe))
    && (scope.own ==> Along(s, ins, SharpOwnProbe) && Along(s, ins, StraysNot))
  }

  ghost predicate StraysNot(s: State, i: Input) { !Strays(s, i) }

  lemma {:induction false} RunKeeps(s: State, ins: seq<Input>, scope: Scope)
    requires WaitersAttended(s, scope) && ProcPids.PidsKnown(s) && GroupsAgree(s) && SafeRun(s, ins, scope)
    ensures WaitersAttended(Run(s, ins), scope)
    decreases ins
  {
    if ins != [] {
      NextKeeps(s, ins[0], scope);
      ProcPids.NextKeeps(s, ins[0]);
      ProcGroups.NextKeeps(s, ins[0]);
      RunKeeps(Next(s, ins[0]), ins[1..], scope);
    }
  }

  /**
   Whenever the wake queue is empty, a suspended waitpid call that asked for stops and continues
   is listed with its waiter, and nothing it could report is waiting there: no record of the
   child it names, no zombie of that pid, no record at all if it waits for any child and, if the
   searches by group id never missed, no record of the group it names; nor of the waiter's own
   group, if in addition no waiter strayed into a group it holds a record of.
   */
  lemma NoLostWaiter(tid: Tid, ins: seq<Input>, id: VirtualId, scope: Scope)
    requires SafeRun(Claimed(tid), ins, scope)
    ensures
      var s := Run(Claimed(tid), ins);
      s.awoken == [] && Patient(s, id) && s.states[id].waiter in s.procs ==>
        var w := s.states[id].waiter;
        id in s.procs[w].waitpidWaiting && NoNews(s, w, s.states[id].target, scope)
  {
    assert GroupsAgree(Claimed(tid)) by { GroupIndexAgrees(tid, []); }
    RunKeeps(Claimed(tid), ins, scope);
    var s := Run(Claimed(tid), ins);
    if Patient(s, id) { assert Attended(s, id, scope); }
  }

  /**
   Of the steps from a state in which every such call is attended to, those for the waiter's own
   group included, exactly those that stray end in a state in which some call is not.
   */
  lemma OwnGroupsAttendedIff(s: State, i: Input)
    requires WaitersAttended(s, Scope(false, true)) && ProcPids.PidsKnown(s) && GroupsAgree(s) && SharpOwnProbe(s, i)
    ensures WaitersAttended(Next(s, i), Scope(false, true)) <==> !Strays(s, i)
  {
    if Strays(s, i) {
      var Call(n, caller, verb) := i.event;
      var s0 := Forget(s, KernelId(n));
      SkeletonKeeps(s, s0);
      assert Forget(s0, KernelId(n)) == s0;
      var move := Moving(s0, caller, verb);
      MovingShifts(s0, n, caller, verb, i.order, i.hit);
      var id :| Unroused(s0, id, move.value.0);
      ShiftsStray(s0, Next(s, i), move.value.0, move.value.1, id, Scope(false, true));
    } else {
      NextKeeps(s, i, Scope(false, true));
    }
  }
}
