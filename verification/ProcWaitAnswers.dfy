/** What waitpid answers, from the table alone, and which calls it leaves suspended. */
module ProcWaitAnswers {
  import opened Prelude
  import opened ProcModel
  import opened ProcFrame
  import opened ProcRuns
  import opened ProcGroups
  import opened ProcWaiters
  import opened ProcListings

  // ---------------------------------------------------------------- the table

  /** There is somebody of the kind asked for to wait for. */
  ghost predicate Suitable(s: State, w: Pid, target: WaitpidTarget) {
    && w in s.procs
    && match target
       case SingleProc(c) => c != w && c in s.procs && s.procs[c].ppid == w
       case ProcGroup(g) => exists m | m in s.procs :: m != w && s.procs[m].pgid == g && s.procs[m].ppid == w
       case _ => HasChild(s, w)
  }

  ghost predicate HasChild(s: State, w: Pid) {
    exists p | p in s.procs :: s.procs[p].ppid == w
  }

  /** The record is of the kind asked for. */
  ghost predicate Matches(target: WaitpidTarget, own: Pid, c: Pid, pgid: Pid) {
    match target
    case AnyChild => true
    case SingleProc(k) => c == k
    case ProcGroup(g) => pgid == g
    case AnyGroupMember => pgid == own
  }

  ghost predicate Named(s: State, target: WaitpidTarget) {
    target.SingleProc? && target.pid in s.procs && s.procs[target.pid].status.Exited?
  }

  /** News for the call: the child it names has exited, or a matching record is filed. */
  ghost predicate News(s: State, w: Pid, target: WaitpidTarget, c: Pid, st: WaitpidStatus)
    requires w in s.procs
  {
    if Named(s, target) then c == target.pid && st == Terminated(s.procs[c].status.fate)
    else c in s.procs[w].waitpid && st == s.procs[w].waitpid[c].status && Matches(target, s.procs[w].pgid, c, s.procs[w].waitpid[c].pgid)
  }

  ghost predicate HasNews(s: State, w: Pid, target: WaitpidTarget)
    requires w in s.procs
  {
    exists c, st :: News(s, w, target, c, st)
  }

  // ---------------------------------------------------------------- refusals

  /** The error of a call that has nobody to wait for. */
  ghost predicate RefusedWith(s: State, w: Pid, target: WaitpidTarget, e: Errno) {
    match e
    case EBADFD => w !in s.procs && (target.AnyChild? || target.AnyGroupMember? ==> HasChild(s, w))
    case EINVAL => w in s.procs && target == SingleProc(w)
    case ECHILD => (w in s.procs && target != SingleProc(w)) || ((target.AnyChild? || target.AnyGroupMember?) && !HasChild(s, w))
    case _ => false
  }

  lemma RefusalIff(s: State, w: Pid, target: WaitpidTarget)
    requires GroupsAgree(s)
    ensures WaitpidRefusal(s, w, target).None? <==> Suitable(s, w, target)
    ensures WaitpidRefusal(s, w, target).Some? ==> RefusedWith(s, w, target, WaitpidRefusal(s, w, target).value)
  {
    if target.ProcGroup? {
      var g := target.pgid;
      if g in s.groups { assert GroupSound(s, g); }
      forall m | m in s.procs && s.procs[m].pgid == g ensures g in s.groups && m in s.groups[g] { assert Indexed(s, m); }
    }
  }

  // ---------------------------------------------------------------- choices

  ghost predicate Chosen(s: State, w: Pid, target: WaitpidTarget, c: Pid, st: WaitpidStatus)
    requires w in s.procs
  {
    News(s, w, target, c, st) && (target.AnyChild? ==> forall k | k in s.procs[w].waitpid :: c <= k)
  }

  lemma PickIsChosen(s: State, w: Pid, target: WaitpidTarget, hit: Option<Pid>)
    requires WaitpidRefusal(s, w, target).None? && Pick(s, w, target, hit).Some?
    ensures w in s.procs && Chosen(s, w, target, Pick(s, w, target, hit).value.0, Pick(s, w, target, hit).value.1)
  {}

  /** With a search that does not miss, nothing is picked only if there is no news. */
  lemma PickFinds(s: State, id: VirtualId, hit: Option<Pid>)
    requires id in s.states && s.states[id].AwaitingStatusChange? && SharpHit(s, id, hit, Scope(true, true))
    requires WaitpidRefusal(s, s.states[id].waiter, s.states[id].target).None?
    ensures
      var AwaitingStatusChange(w, target, _) := s.states[id];
      w in s.procs && (Pick(s, w, target, hit).None? ==> !HasNews(s, w, target))
  {
    var AwaitingStatusChange(w, target, _) := s.states[id];
    if Pick(s, w, target, hit).None? {
      forall c, st ensures !News(s, w, target, c, st) {
        if News(s, w, target, c, st) {
          var q := s.procs[w];
          if target.ProcGroup? || target.AnyGroupMember? { assert GroupNews(q, q.waitpid[c].pgid); }
        }
      }
    }
  }

  // ---------------------------------------------------------------- the answer

  /** The call takes this news, and tells its caller if it is of a kind asked for. */
  ghost predicate TakesNews(s: State, t: State, r: Poll, w: Pid, flags: WaitFlags, c: Pid, st: WaitpidStatus) {
    && r == (if Unwanted(st, flags) then Pending else Ready(Done(c, StatusWord(st))))
    && (w in t.procs ==> w in s.procs && t.procs[w].waitpid == s.procs[w].waitpid - {c})
    && (forall p | p in t.procs && p != w :: p in s.procs && t.procs[p] == s.procs[p])
    && t.procs.Keys == s.procs.Keys - (if st.Terminated? && c in s.procs && s.procs[c].threads == {} then {c} else {})
  }

  /** The whole answer: an error, the news, nothing at once, or none yet. */
  ghost predicate Answers(s: State, t: State, r: Poll, w: Pid, target: WaitpidTarget, flags: WaitFlags) {
    if !Suitable(s, w, target) then
      r.Ready? && r.response.Failed? && RefusedWith(s, w, target, r.response.errno) && t.procs == s.procs && t.groups == s.groups
    else if HasNews(s, w, target) then exists c, st :: Chosen(s, w, target, c, st) && TakesNews(s, t, r, w, flags, c, st)
    else if flags.nohang then r == Ready(Done(0, 0)) && t.procs == s.procs && t.groups == s.groups
    else r == Pending && t.procs.Keys == s.procs.Keys && t.groups == s.groups
  }

  lemma TakenAnswer(s: State, w: Pid, target: WaitpidTarget, flags: WaitFlags, id: VirtualId, hit: Option<Pid>)
    requires WaitpidRefusal(s, w, target).None? && Pick(s, w, target, hit).Some?
    ensures
      var (c, st) := Pick(s, w, target, hit).value;
      var (t, r) := OnWaitpid(s, w, target, flags, id, hit);
      TakesNews(s, t, r, w, flags, c, st)
  {
    var (c, st) := Pick(s, w, target, hit).value;
    var (t, r) := OnWaitpid(s, w, target, flags, id, hit);
    assert t == TakeRecord(s, w, c) || (st.Terminated? && t == Reap(TakeRecord(s, w, c), c));
  }

  lemma OnWaitpidAnswers(s: State, id: VirtualId, hit: Option<Pid>)
    requires GroupsAgree(s) && id in s.states && s.states[id].AwaitingStatusChange? && SharpHit(s, id, hit, Scope(true, true))
    ensures
      var AwaitingStatusChange(w, target, flags) := s.states[id];
      var (t, r) := OnWaitpid(s, w, target, flags, id, hit);
      Answers(s, t, r, w, target, flags)
  {
    var AwaitingStatusChange(w, target, flags) := s.states[id];
    RefusalIff(s, w, target);
    if WaitpidRefusal(s, w, target).None? {
      PickFinds(s, id, hit);
      if Pick(s, w, target, hit).Some? {
        PickIsChosen(s, w, target, hit);
        TakenAnswer(s, w, target, flags, id, hit);
      }
    }
  }

  /**
   In every state with an agreeing group index, a step that examines a waitpid call, with a search
   that does not miss, answers: the error if there is nobody to wait for; matching news, of the
   lowest pid for any child, unless it is of a kind not asked for; with none, nothing at once under
   WNOHANG; and else no answer yet.
   */
  lemma WaitpidAnswers(s: State, i: Input)
    requires GroupsAgree(s) && Examined(s, i.event).Some? && Sharp(s, i, Scope(true, true))
    ensures
      var (s1, id) := Examined(s, i.event).value;
      var AwaitingStatusChange(w, target, flags) := s1.states[id];
      Answers(s, Next(s, i), Step(s, i.event, i.order, i.hit).1, w, target, flags)
  {
    var (s1, id) := Examined(s, i.event).value;
    var AwaitingStatusChange(w, target, flags) := s1.states[id];
    SkeletonKeeps(s, s1);
    OnWaitpidAnswers(s1, id, i.hit);
    var (t, r) := OnWaitpid(s1, w, target, flags, id, i.hit);
    assert Next(s, i).procs == t.procs && Next(s, i).groups == t.groups && Step(s, i.event, i.order, i.hit).1 == r;
    SameAnswers(s1, s, t, Next(s, i), r, w, target, flags);
  }

  /** Only processes and groups matter. */
  lemma SameAnswers(s1: State, s: State, t1: State, t: State, r: Poll, w: Pid, target: WaitpidTarget, flags: WaitFlags)
    requires s1.procs == s.procs && s1.groups == s.groups && t1.procs == t.procs && t1.groups == t.groups
    requires Answers(s1, t1, r, w, target, flags)
    ensures Answers(s, t, r, w, target, flags)
  {
    assert Suitable(s1, w, target) == Suitable(s, w, target);
    if Suitable(s, w, target) {
      forall c, st ensures News(s1, w, target, c, st) == News(s, w, target, c, st) {}
      if HasNews(s1, w, target) {
        var c, st :| Chosen(s1, w, target, c, st) && TakesNews(s1, t1, r, w, flags, c, st);
        assert Chosen(s, w, target, c, st) && TakesNews(s, t, r, w, flags, c, st);
      }
    }
  }

  // ---------------------------------------------------------------- suspended WNOHANG calls

  ghost predicate Restless(s: State, id: VirtualId) {
    Suspended(s, id) && s.states[id].flags.nohang
  }

  /** The step examines the call `id`, which takes news of a kind it did not ask for. */
  ghost predicate Gulps(s: State, i: Input, id: VirtualId) {
    var look := Examined(s, i.event);
    && look.Some? && look.value.1 == id
    && var s1 := look.value.0; var AwaitingStatusChange(w, target, flags) := s1.states[id];
       && WaitpidRefusal(s1, w, target).None? && Pick(s1, w, target, i.hit).Some?
       && Unwanted(Pick(s1, w, target, i.hit).value.1, flags)
  }

  /** No call is suspended that was not suspended before. */
  ghost predicate NoNewCalls(s: State, t: State) {
    forall id | Suspended(t, id) :: id in s.states && s.states[id] == t.states[id]
  }

  lemma ThreadsCalls(s: State, id: VirtualId, order: Order, hit: Option<Pid>)
    requires id in s.states && !s.states[id].AwaitingStatusChange?
    ensures NoNewCalls(s, WorkOn(s, id, order, hit).0)
  {
    if s.states[id].AwaitingThreadsTermination? && s.states[id].pid in s.procs
       && s.procs[s.states[id].pid].threads == {} && s.procs[s.states[id].pid].status.Exiting? {
      var pid := s.states[id].pid;
      var s1 := Put(Forget(s, id), pid, s.procs[pid].(status := Exited(s.procs[pid].status.fate)));
      AfterExitCalm(s1, pid, order);
      assert WorkOn(s, id, order, hit).0 == AfterExit(s1, pid, order);
    }
  }

  lemma ExitStartCalls(s: State, id: VirtualId, pid: Pid, raw: nat, tag: bool, order: Order)
    ensures NoNewCalls(s, ExitStart(s, id, pid, raw, tag, order).0)
  {
    if pid in s.procs && !s.procs[pid].status.Ending() && DecodeExit(raw).Some? {
      var s1 := Armed(s, id, pid, DecodeExit(raw).value, tag);
      ThreadsCalls(s1, id, order, None);
      assert NoNewCalls(s, s1);
    }
  }

  lemma ThreadDeathCalls(s: State, pid: Pid, tid: Tid, raw: nat, order: Order)
    ensures NoNewCalls(s, ThreadDeath(s, pid, tid, raw, order))
  {
    if pid in s.procs {
      ExitStartCalls(Bumped(DropThread(s, pid, tid)), InternalId(s.nextInternal), pid, raw, false, order);
    }
  }

  lemma OnCallCalls(s: State, n: nat, caller: Pid, verb: Verb, order: Order, hit: Option<Pid>)
    requires !verb.Waitpid?
    ensures NoNewCalls(s, OnCall(s, n, caller, verb, order, hit).0)
  {
    var s0 := Forget(s, KernelId(n));
    if verb.Exit? {
      ExitStartCalls(s0, KernelId(n), caller, verb.raw, true, order);
    } else if verb.Kill? {
      SendSigCalm(s0, caller, verb.victim, verb.sig, verb.willStop);
    } else {
      PlainCall(s, n, caller, verb, order, hit);
    }
  }

  /** The examined call with WNOHANG stays suspended exactly if it gulps. */
  lemma ExaminedRestlessIff(s: State, i: Input)
    requires Examined(s, i.event).Some?
    ensures
      var (s1, id) := Examined(s, i.event).value;
      && (s1.states[id].flags.nohang ==> (Restless(Next(s, i), id) <==> Gulps(s, i, id)))
      && forall other | other != id && Suspended(Next(s, i), other) :: other in s.states && s.states[other] == Next(s, i).states[other]
  {
    var (s1, id) := Examined(s, i.event).value;
    var AwaitingStatusChange(w, target, flags) := s1.states[id];
    OnWaitpidFrame(s1, w, target, flags, id, i.hit);
    var (t, r) := OnWaitpid(s1, w, target, flags, id, i.hit);
    assert Next(s, i).states == if r.Ready? then t.states[id := Placeholder] else t.states;
  }

  lemma RestlessStep(s: State, i: Input, id: VirtualId)
    requires Restless(Next(s, i), id)
    ensures Gulps(s, i, id) || Restless(s, id)
  {
    if Examined(s, i.event).Some? {
      ExaminedRestlessIff(s, i);
      var (s1, x) := Examined(s, i.event).value;
      var AwaitingStatusChange(w, target, flags) := s1.states[x];
      OnWaitpidFrame(s1, w, target, flags, x, i.hit);
    } else {
      match i.event
      case Call(n, caller, verb) => OnCallCalls(s, n, caller, verb, i.order, i.hit);
      case Death(pid, tid, raw) => ThreadDeathCalls(s, pid, tid, raw, i.order);
      case WakeEvent =>
        if s.awoken != [] && s.awoken[0] in s.states { ThreadsCalls(s.(awoken := s.awoken[1..]), s.awoken[0], i.order, i.hit); }
      case _ =>
    }
  }

  /** Somewhere along the run the call `id` gulps. */
  ghost predicate HasGulped(s: State, ins: seq<Input>, id: VirtualId)
    decreases ins
  {
    ins != [] && (Gulps(s, ins[0], id) || HasGulped(Next(s, ins[0]), ins[1..], id))
  }

  lemma {:induction false} RestlessRun(s: State, ins: seq<Input>, id: VirtualId)
    requires Restless(Run(s, ins), id)
    ensures HasGulped(s, ins, id) || Restless(s, id)
    decreases ins
  {
    if ins != [] {
      RestlessRun(Next(s, ins[0]), ins[1..], id);
      if !HasGulped(Next(s, ins[0]), ins[1..], id) { RestlessStep(s, ins[0], id); }
    }
  }

  /** In every run a suspended call carries WNOHANG only if it has taken news it did not ask for. */
  lemma NohangNeverSleeps(tid: Tid, ins: seq<Input>, id: VirtualId)
    requires Restless(Run(Claimed(tid), ins), id)
    ensures HasGulped(Claimed(tid), ins, id)
  {
    RestlessRun(Claimed(tid), ins, id);
  }
}
