/**
 The process manager's tables and every step that changes them, as total functions on values.
 Processes refer to each other by pid where the program holds shared pointers.  Whatever a step
 takes from outside (a thread id, a hash map's iteration order, what a user-mapped signal page
 says) is an argument.
 */
module ProcModel {
  import opened Prelude

  type Pid = nat
  type Tid = nat

  const INIT: Pid := 1

  const SIGHUP := 1
  const SIGCHLD := 17
  const SIGCONT := 18
  const SIGSTOP := 19
  const SIGTSTP := 20
  const SIGTTIN := 21
  const SIGTTOU := 22

  datatype Errno = EAGAIN | EACCES | EBADFD | ECANCELED | ECHILD | EINVAL | EPERM | ESRCH

  /** Request ids: the kernel's, and the ones the manager invents for requests nobody awaits. */
  datatype VirtualId = KernelId(n: nat) | InternalId(n: nat)

  /** How a process ended: the signal, if one killed it, and the exit status. */
  datatype Fate = Fate(signal: Option<nat>, status: nat)

  datatype ProcessStatus =
    | PossiblyRunnable
    | Stopped(sig: nat)
    | Exiting(fate: Fate)
    | Exited(fate: Fate)
  {
    predicate Ending() { Exiting? || Exited? }
  }

  datatype WaitpidStatus =
    | Continued
    | StoppedBy(signal: nat)
    | Terminated(fate: Fate)

  /** A waitpid map entry.  The map is ordered by pid; `pgid` is the other half of the stored key. */
  datatype Record = Record(pgid: Pid, status: WaitpidStatus)

  datatype WaitpidTarget =
    | SingleProc(pid: Pid)
    | ProcGroup(pgid: Pid)
    | AnyChild
    | AnyGroupMember

  datatype WaitFlags = WaitFlags(nohang: bool, untraced: bool, continued: bool)

  datatype PendingState =
    | AwaitingStatusChange(waiter: Pid, target: WaitpidTarget, flags: WaitFlags)
    | AwaitingThreadsTermination(pid: Pid, tag: bool)
    | Placeholder

  datatype Process = Process(
    threads: set<Tid>,
    ppid: Pid,
    pgid: Pid,
    sid: Pid,
    ruid: nat,
    euid: nat,
    status: ProcessStatus,
    disabledSetpgid: bool,
    awaitingThreadsTerm: seq<VirtualId>,
    waitpid: map<Pid, Record>,
    waitpidWaiting: seq<VirtualId>,
    sigPctl: bool)

  datatype Response = Done(value: nat, status: nat) | Failed(errno: Errno)
  datatype Poll = Pending | Ready(response: Response)

  datatype State = State(
    procs: map<Pid, Process>,
    groups: map<Pid, seq<Pid>>,
    nextId: Pid,
    nextInternal: nat,
    states: map<VirtualId, PendingState>,
    awoken: seq<VirtualId>)

  /** The order in which the hash maps of children and of affected groups are walked. */
  datatype Order = Order(kids: seq<Pid>, pgrps: seq<Pid>)

  function Put(s: State, p: Pid, q: Process): State {
    s.(procs := s.procs[p := q])
  }

  function Forget(s: State, id: VirtualId): State {
    s.(states := s.states - {id})
  }

  /** Moves the waitpid waiters of `p` to the wake queue. */
  function Drain(s: State, p: Pid): State
    requires p in s.procs
  {
    var q := s.procs[p];
    Put(s, p, q.(waitpidWaiting := [])).(awoken := s.awoken + q.waitpidWaiting)
  }

  /** `BTreeMap::insert`: an entry that is already there keeps its stored key. */
  function Insert(m: map<Pid, Record>, pid: Pid, pgid: Pid, st: WaitpidStatus): map<Pid, Record> {
    m[pid := Record(if pid in m then m[pid].pgid else pgid, st)]
  }

  /** Files a record about `child` with `parent` and wakes the parent's waiters. */
  function Report(s: State, parent: Pid, child: Pid, pgid: Pid, st: WaitpidStatus): State
    requires parent in s.procs
  {
    var q := s.procs[parent];
    Drain(Put(s, parent, q.(waitpid := Insert(q.waitpid, child, pgid, st))), parent)
  }

  // ---------------------------------------------------------------- process groups

  /** A member whose parent is in the table, in another group, and in the member's session. */
  predicate Anchors(s: State, m: Pid) {
    && m in s.procs
    && s.procs[m].ppid in s.procs
    && var q := s.procs[m]; var parent := s.procs[q.ppid];
       parent.pgid != q.pgid && parent.sid == q.sid
  }

  function PgrpIsOrphaned(s: State, g: Pid): Option<bool> {
    if g !in s.groups then None
    else Some(forall m | m in s.groups[g] :: !Anchors(s, m))
  }

  predicate IsOrphaned(s: State, g: Pid) {
    PgrpIsOrphaned(s, g) == Some(true)
  }

  /** Takes `pid` out of group `g`; a group that becomes empty is removed. */
  function Leave(groups: map<Pid, seq<Pid>>, g: Pid, pid: Pid): map<Pid, seq<Pid>>
    requires g in groups
  {
    var rest := Without(groups[g], pid);
    if rest == [] then groups - {g} else groups[g := rest]
  }

  function Join(groups: map<Pid, seq<Pid>>, g: Pid, pid: Pid): map<Pid, seq<Pid>> {
    groups[g := (if g in groups then groups[g] else []) + [pid]]
  }

  /** `set_pgid` on a process already found; the caller has checked `newPgid` differs. */
  function SetPgid(s: State, pid: Pid, newPgid: Pid): (State, Option<Errno>)
    requires pid in s.procs
  {
    var q := s.procs[pid];
    var s1 := if q.ppid != pid && q.ppid in s.procs then Drain(s, q.ppid) else s;
    if q.pgid !in s1.groups then (s1, Some(ESRCH))
    else
      var groups := Join(Leave(s1.groups, q.pgid, pid), newPgid, pid);
      (Put(s1, pid, s1.procs[pid].(pgid := newPgid)).(groups := groups), None)
  }

  function Setpgid(s: State, caller: Pid, target: Pid, newPgid: Pid): (State, Option<Errno>) {
    if caller !in s.procs || target !in s.procs then (s, Some(ESRCH))
    else
      var q := s.procs[target];
      if q.ppid != caller && target != caller then (s, Some(ESRCH))
      else if q.ppid != target && q.ppid !in s.procs then (s, Some(ESRCH))
      else if q.sid == target then (s, Some(EPERM))
      else if s.procs[caller].sid != q.sid then (s, Some(EPERM))
      else if newPgid != target && newPgid !in s.groups then (s, Some(EPERM))
      else if q.ppid == caller && q.disabledSetpgid then (s, Some(EACCES))
      else if q.pgid == newPgid then (s, None)
      else SetPgid(s, target, newPgid)
  }

  function Setsid(s: State, caller: Pid): (State, Option<Errno>) {
    if exists p | p in s.procs :: p != caller && s.procs[p].pgid == caller then (s, Some(EPERM))
    else if caller !in s.procs then (s, Some(ESRCH))
    else if s.procs[caller].ppid == caller then (s, Some(ESRCH))
    else if s.procs[caller].pgid == caller then (s, Some(EPERM))
    else
      var (s1, err) := SetPgid(s, caller, caller);
      if err.Some? then (s1, err)
      else (Put(s1, caller, s1.procs[caller].(sid := caller)), None)
  }

  // ---------------------------------------------------------------- creation

  /** The state once init has been claimed, with init's first thread. */
  function Claimed(tid: Tid): State {
    State(
      map[INIT := Process({tid}, INIT, INIT, INIT, 0, 0, PossiblyRunnable, false, [], map[], [], false)],
      map[INIT := [INIT]], 2, 1, map[], [])
  }

  function Fork(s: State, parent: Pid, tid: Tid): State {
    var child := s.nextId;
    var s1 := s.(nextId := child + 1);
    if parent !in s.procs then s1
    else
      var q := s.procs[parent];
      var newborn := Process({tid}, parent, q.pgid, q.sid, q.ruid, q.euid, PossiblyRunnable, false, [], map[], [], false);
      var s2 := if q.pgid in s1.groups then s1.(groups := Join(s1.groups, q.pgid, child)) else s1;
      Put(s2, child, newborn)
  }

  function NewThread(s: State, pid: Pid, tid: Tid): State {
    if pid !in s.procs then s
    else Put(s, pid, s.procs[pid].(threads := s.procs[pid].threads + {tid}))
  }

  /** Mapping the signal page needs a thread to map it from. */
  function SyncSigPctl(s: State, pid: Pid): State {
    if pid !in s.procs || s.procs[pid].threads == {} then s
    else Put(s, pid, s.procs[pid].(sigPctl := true))
  }

  function DisableSetpgid(s: State, pid: Pid): State {
    if pid !in s.procs then s
    else Put(s, pid, s.procs[pid].(disabledSetpgid := true))
  }

  /** `on_setresugid`, as an arbitrary change of the two ids that decide who may signal whom. */
  function SetIds(s: State, pid: Pid, ruid: nat, euid: nat): State {
    if pid !in s.procs then s
    else Put(s, pid, s.procs[pid].(ruid := ruid, euid := euid))
  }

  // ---------------------------------------------------------------- signals

  predicate ConditionalStop(sig: nat) {
    sig == SIGTTIN || sig == SIGTTOU || sig == SIGTSTP
  }

  /**
   What `on_send_sig` does to the tables.  `willStop` is the target's signal page saying that a
   conditional stop signal has its default action.
   */
  function SendSig(s: State, caller: Pid, target: Pid, sig: nat, willStop: bool): (r: (State, Option<Errno>))
    ensures r.0.procs.Keys == s.procs.Keys
    decreases if sig == SIGCHLD then 0 else 1, 0
  {
    if sig > 64 then (s, Some(EINVAL))
    else if target !in s.procs || caller !in s.procs then (s, Some(ESRCH))
    else
      var c, t := s.procs[caller], s.procs[target];
      if c.euid != 0 && c.euid != t.ruid && c.ruid != t.ruid then (s, Some(EPERM))
      else if sig == 0 || t.status.Ending() then (s, None)
      else if !t.sigPctl then (s, Some(ESRCH))
      else if sig == SIGCONT && t.status.Stopped? then
        Notify(Put(s, target, t.(status := PossiblyRunnable)), target, t.ppid, t.pgid, Continued)
      else if sig == SIGSTOP || (ConditionalStop(sig) && willStop) then
        if ConditionalStop(sig) && PgrpIsOrphaned(s, t.pgid) != Some(false) then (s, None)
        else Notify(Put(s, target, t.(status := Stopped(sig))), target, t.ppid, t.pgid, StoppedBy(sig))
      else (s, None)
  }

  /** Files the stop or continue record with the parent, then sends it SIGCHLD. */
  function Notify(s: State, target: Pid, ppid: Pid, pgid: Pid, st: WaitpidStatus): (r: (State, Option<Errno>))
    ensures r.0.procs.Keys == s.procs.Keys
    decreases 0, 1
  {
    if ppid !in s.procs then (s, Some(ESRCH))
    else
      var s1 := Report(s, ppid, target, pgid, st);
      (if ppid != INIT then SendSig(s1, INIT, ppid, SIGCHLD, false).0 else s1, None)
  }

  // ---------------------------------------------------------------- exit

  predicate IsChild(s: State, p: Pid, cur: Pid) {
    p in s.procs && p != INIT && s.procs[p].ppid == cur
  }

  /** Groups whose orphan state is sampled around a reparenting. */
  predicate Affected(s: State, cur: Pid, g: Pid) {
    || (cur in s.procs && s.procs[cur].pgid == g)
    || exists p | p in s.procs :: IsChild(s, p, cur) && s.procs[p].pgid == g
  }

  /** Hands `p` to init together with the records filed with `p` itself. */
  function ReparentOne(s: State, p: Pid): State
    requires p in s.procs && INIT in s.procs
  {
    var q := s.procs[p];
    var s1 := Put(s, p, q.(ppid := INIT, waitpid := map[]));
    Put(s1, INIT, s1.procs[INIT].(waitpid := s1.procs[INIT].waitpid + q.waitpid))
  }

  function Reparent(s: State, cur: Pid, order: seq<Pid>): (r: State)
    requires INIT in s.procs
    ensures r.procs.Keys == s.procs.Keys
    decreases order
  {
    if order == [] then s
    else
      var s1 := if IsChild(s, order[0], cur) then ReparentOne(s, order[0]) else s;
      Reparent(s1, cur, order[1..])
  }

  /** SIGCONT then SIGHUP to a stopped member of a newly orphaned group. */
  function Rouse(s: State, m: Pid): (r: State)
    ensures r.procs.Keys == s.procs.Keys
  {
    if m in s.procs && s.procs[m].status.Stopped? then
      SendSig(SendSig(s, INIT, m, SIGCONT, false).0, INIT, m, SIGHUP, false).0
    else s
  }

  function RouseAll(s: State, members: seq<Pid>): (r: State)
    ensures r.procs.Keys == s.procs.Keys
    decreases members
  {
    if members == [] then s else RouseAll(Rouse(s, members[0]), members[1..])
  }

  /** Visits the sampled groups; `was` is the state in which they were sampled. */
  function RouseOrphans(s: State, was: State, cur: Pid, order: seq<Pid>): (r: State)
    ensures r.procs.Keys == s.procs.Keys
    decreases order
  {
    if order == [] then s
    else
      var g := order[0];
      var s1 := if Affected(was, cur, g) && !IsOrphaned(was, g) && IsOrphaned(s, g) then RouseAll(s, s.groups[g]) else s;
      RouseOrphans(s1, was, cur, order[1..])
  }

  /** Everything that follows a process entering `Exited`. */
  function AfterExit(s: State, cur: Pid, order: Order): State
    requires cur in s.procs && s.procs[cur].status.Exited?
  {
    var q := s.procs[cur];
    if q.ppid !in s.procs then s
    else
      var s1 := SendSig(s, cur, q.ppid, SIGCHLD, false).0;
      var s2 := if INIT in s1.procs then Disown(s1, cur, order) else s1;
      Report(s2, q.ppid, cur, q.pgid, Terminated(q.status.fate))
  }

  /** Wakes init's waiters, gives the children to init and rouses newly orphaned groups. */
  function Disown(s: State, cur: Pid, order: Order): (r: State)
    requires INIT in s.procs
    ensures r.procs.Keys == s.procs.Keys
  {
    var was := Drain(s, INIT);
    RouseOrphans(Reparent(was, cur, order.kids), was, cur, order.pgrps)
  }

  /** What a raw 16-bit status given to exit means, if it means anything. */
  function DecodeExit(raw: nat): Option<Fate> {
    if raw < 256 then Some(Fate(None, raw))
    else if 1 <= raw / 256 <= 64 then Some(Fate(Some(raw / 256), 0))
    else None
  }

  function Answer(tag: bool, r: Response): Poll {
    if tag then Ready(r) else Pending
  }

  /** `pid` is exiting and the request `id` waits for its threads. */
  function Armed(s: State, id: VirtualId, pid: Pid, fate: Fate, tag: bool): (r: State)
    requires pid in s.procs
    ensures id in r.states
  {
    var q := s.procs[pid];
    var awaiting := if q.threads == {} then q.awaitingThreadsTerm else q.awaitingThreadsTerm + [id];
    Put(s, pid, q.(status := Exiting(fate), awaitingThreadsTerm := awaiting))
    .(states := s.states[id := AwaitingThreadsTermination(pid, tag)])
  }

  /** The entry is vacant: `id` is not in `states`. */
  function ExitStart(s: State, id: VirtualId, pid: Pid, raw: nat, tag: bool, order: Order): (State, Poll) {
    if pid !in s.procs then (s, Answer(tag, Failed(EBADFD)))
    else
      var q := s.procs[pid];
      if q.status.Exiting? then (s, Answer(tag, Failed(EAGAIN)))
      else if q.status.Exited? then (s, Answer(tag, Failed(ESRCH)))
      else if DecodeExit(raw).None? then (s, Answer(tag, Failed(EINVAL)))
      else WorkOn(Armed(s, id, pid, DecodeExit(raw).value, tag), id, order, None)
  }

  // ---------------------------------------------------------------- waitpid

  /** The 32-bit status word handed to the caller of waitpid. */
  function StatusWord(st: WaitpidStatus): nat {
    match st
    case Continued => 0xffff
    case StoppedBy(sig) => 0x7f + 256 * sig
    case Terminated(f) => (if f.signal.Some? then f.signal.value else 0) + 256 * f.status
  }

  /** `first_key_value`: the record of the lowest pid. */
  function First(m: map<Pid, Record>): (p: Pid)
    requires m != map[]
    ensures p in m && forall q | q in m :: p <= q
  {
    LowestExists(m.Keys);
    var p :| p in m && forall q | q in m :: p <= q;
    p
  }

  lemma LowestExists(ps: set<Pid>)
    requires ps != {}
    ensures exists p :: p in ps && forall q | q in ps :: p <= q
  {
    var low := Lowest(ps);
  }

  lemma {:induction false} Lowest(ps: set<Pid>) returns (low: Pid)
    requires ps != {}
    ensures low in ps && forall q | q in ps :: low <= q
  {
    var first :| first in ps;
    var rest := ps - {first};
    assert forall q | q in ps :: q == first || q in rest;
    low := first;
    if rest != {} {
      var other := Lowest(rest);
      if other < low { low := other; }
    }
  }

  /**
   The record `waitpid` selects, if any.  `hit` is what the tree search by group id alone came
   back with; it counts only if that record really carries the group id.
   */
  function Select(m: map<Pid, Record>, target: WaitpidTarget, ownPgid: Pid, hit: Option<Pid>): Option<Pid> {
    match target
    case AnyChild => if m == map[] then None else Some(First(m))
    case SingleProc(pid) => if pid in m then Some(pid) else None
    case AnyGroupMember => if hit.Some? && hit.value in m && m[hit.value].pgid == ownPgid then hit else None
    case ProcGroup(g) => if hit.Some? && hit.value in m && m[hit.value].pgid == g then hit else None
  }

  function Reap(s: State, pid: Pid): State {
    if pid !in s.procs || s.procs[pid].threads != {} then s
    else
      var g := s.procs[pid].pgid;
      var s1 := s.(procs := s.procs - {pid});
      if g !in s.groups then s1 else s1.(groups := Leave(s.groups, g, pid))
  }

  /** Reports a consumed record, or drops it when the caller did not ask for its kind. */
  function GrimReaper(s: State, pid: Pid, st: WaitpidStatus, flags: WaitFlags): (State, Poll) {
    match st
    case Continued => (s, if flags.continued then Ready(Done(pid, StatusWord(st))) else Pending)
    case StoppedBy(_) => (s, if flags.untraced then Ready(Done(pid, StatusWord(st))) else Pending)
    case Terminated(_) => (Reap(s, pid), Ready(Done(pid, StatusWord(st))))
  }

  function TakeRecord(s: State, w: Pid, pid: Pid): State
    requires w in s.procs
  {
    Put(s, w, s.procs[w].(waitpid := s.procs[w].waitpid - {pid}))
  }

  /** Why `waitpid` fails at once, if it does. */
  function WaitpidRefusal(s: State, w: Pid, target: WaitpidTarget): Option<Errno> {
    if (target.AnyChild? || target.AnyGroupMember?) && !exists p | p in s.procs :: s.procs[p].ppid == w then Some(ECHILD)
    else if w !in s.procs then Some(EBADFD)
    else match target
      case SingleProc(pid) =>
        if pid == w then Some(EINVAL)
        else if pid !in s.procs || s.procs[pid].ppid != w then Some(ECHILD)
        else None
      case ProcGroup(g) =>
        if g in s.groups && exists m | m in s.groups[g] :: m in s.procs && m != w && s.procs[m].ppid == w then None
        else Some(ECHILD)
      case _ => None
  }

  /** The child whose news `waitpid` consumes, with the news; an exited target needs no record. */
  function Pick(s: State, w: Pid, target: WaitpidTarget, hit: Option<Pid>): Option<(Pid, WaitpidStatus)>
    requires WaitpidRefusal(s, w, target).None?
  {
    if target.SingleProc? && s.procs[target.pid].status.Exited? then
      Some((target.pid, Terminated(s.procs[target.pid].status.fate)))
    else
      var found := Select(s.procs[w].waitpid, target, s.procs[w].pgid, hit);
      if found.Some? then Some((found.value, s.procs[w].waitpid[found.value].status)) else None
  }

  function Register(s: State, w: Pid, id: VirtualId): State
    requires w in s.procs
  {
    Put(s, w, s.procs[w].(waitpidWaiting := s.procs[w].waitpidWaiting + [id]))
  }

  function OnWaitpid(s: State, w: Pid, target: WaitpidTarget, flags: WaitFlags, id: VirtualId, hit: Option<Pid>): (State, Poll) {
    var refusal := WaitpidRefusal(s, w, target);
    if refusal.Some? then (s, Ready(Failed(refusal.value)))
    else
      var news := Pick(s, w, target, hit);
      if news.Some? then GrimReaper(TakeRecord(s, w, news.value.0), news.value.0, news.value.1, flags)
      else if flags.nohang then (s, Ready(Done(0, 0)))
      else (Register(s, w, id), Pending)
  }

  // ---------------------------------------------------------------- suspended requests

  /** The last thread is gone: the exit completes. */
  function Complete(s: State, id: VirtualId, pid: Pid, order: Order): State
    requires pid in s.procs && s.procs[pid].status.Exiting?
  {
    AfterExit(Put(Forget(s, id), pid, s.procs[pid].(status := Exited(s.procs[pid].status.fate))), pid, order)
  }

  function AwaitThreads(s: State, id: VirtualId, pid: Pid): State
    requires pid in s.procs
  {
    Put(s, pid, s.procs[pid].(awaitingThreadsTerm := s.procs[pid].awaitingThreadsTerm + [id]))
  }

  function Spend(s: State, id: VirtualId): State {
    s.(states := s.states[id := Placeholder])
  }

  function WorkOn(s: State, id: VirtualId, order: Order, hit: Option<Pid>): (State, Poll)
    requires id in s.states
  {
    match s.states[id]
    case Placeholder => (s, Pending)
    case AwaitingThreadsTermination(pid, tag) =>
      var spent := if tag then Spend(s, id) else Forget(s, id);
      if pid !in s.procs then (spent, Answer(tag, Failed(ESRCH)))
      else if s.procs[pid].threads != {} then (AwaitThreads(s, id, pid), Pending)
      else if s.procs[pid].status.Exiting? then (Complete(s, id, pid, order), Answer(tag, Done(0, 0)))
      else (spent, Answer(tag, if s.procs[pid].status.Exited? then Done(0, 0) else Failed(ESRCH)))
    case AwaitingStatusChange(w, target, flags) =>
      var (s1, r) := OnWaitpid(s, w, target, flags, id, hit);
      (if r.Ready? then Spend(s1, id) else s1, r)
  }

  function DropThread(s: State, pid: Pid, tid: Tid): State
    requires pid in s.procs
  {
    Put(s, pid, s.procs[pid].(threads := s.procs[pid].threads - {tid}))
  }

  /** Moves the requests awaiting the threads of `pid` to the wake queue. */
  function WakeAwaiting(s: State, pid: Pid): State
    requires pid in s.procs
  {
    Put(s, pid, s.procs[pid].(awaitingThreadsTerm := [])).(awoken := s.awoken + s.procs[pid].awaitingThreadsTerm)
  }

  /** Takes the next internal id. */
  function Bumped(s: State): State {
    s.(nextInternal := s.nextInternal + 1)
  }

  /** The last thread died without an exit call: one is started on the process's behalf. */
  function LastThread(s: State, id: VirtualId, pid: Pid, raw: nat, order: Order): State {
    if id in s.states then s else ExitStart(s, id, pid, raw, false, order).0
  }

  /** A thread's death event, with the raw status it stands for. */
  function ThreadDeath(s: State, pid: Pid, tid: Tid, raw: nat, order: Order): State {
    if pid !in s.procs || tid !in s.procs[pid].threads then s
    else
      var s1 := DropThread(s, pid, tid);
      if s1.procs[pid].status.Exiting? then WakeAwaiting(s1, pid)
      else if s1.procs[pid].threads == {} then LastThread(Bumped(s1), InternalId(s.nextInternal), pid, raw, order)
      else s1
  }

  function Cancel(s: State, n: nat): (State, Poll) {
    var id := KernelId(n);
    if id !in s.states then (s, Pending)
    else match s.states[id]
      case AwaitingStatusChange(_, _, _) => (Forget(s, id), Ready(Failed(ECANCELED)))
      case AwaitingThreadsTermination(pid, tag) =>
        var vid := InternalId(s.nextInternal);
        var s1 := Forget(s, id);
        (s1.(nextInternal := s.nextInternal + 1,
             states := s1.states[vid := AwaitingThreadsTermination(pid, false)],
             awoken := s.awoken + [vid]),
         Answer(tag, Failed(ECANCELED)))
      case Placeholder => (Forget(s, id), Pending)
  }

  /** One turn of the wake-up loop. */
  function Wake(s: State, order: Order, hit: Option<Pid>): (State, Poll)
    requires s.awoken != []
  {
    var s1 := s.(awoken := s.awoken[1..]);
    if s.awoken[0] in s1.states then WorkOn(s1, s.awoken[0], order, hit) else (s1, Pending)
  }

  // ---------------------------------------------------------------- events

  datatype Verb =
    | Exit(raw: nat)
    | Waitpid(target: WaitpidTarget, flags: WaitFlags)
    | SetpgidCall(member: Pid, newPgid: Pid)
    | SetsidCall
    | Kill(victim: Pid, sig: nat, willStop: bool)
    | SyncPctl
    | DisableSetpgidCall
    | SetResugid(ruid: nat, euid: nat)

  datatype Event =
    | ForkEvent(parent: Pid, tid: Tid)
    | ThreadEvent(pid: Pid, tid: Tid)
    | Call(n: nat, caller: Pid, verb: Verb)
    | CancelEvent(n: nat)
    | Death(pid: Pid, tid: Tid, raw: nat)
    | WakeEvent

  function Refusable(r: (State, Option<Errno>)): (State, Poll) {
    (r.0, Ready(if r.1.Some? then Failed(r.1.value) else Done(0, 0)))
  }

  /** A call first evicts whatever the request id still held. */
  function OnCall(s: State, n: nat, caller: Pid, verb: Verb, order: Order, hit: Option<Pid>): (State, Poll) {
    var id := KernelId(n);
    var s0 := Forget(s, id);
    match verb
    case Exit(raw) => ExitStart(s0, id, caller, raw, true, order)
    case Waitpid(target, flags) =>
      WorkOn(s0.(states := s0.states[id := AwaitingStatusChange(caller, target, flags)]), id, order, hit)
    case SetpgidCall(member, newPgid) => Refusable(Setpgid(s0, caller, member, newPgid))
    case SetsidCall => Refusable(Setsid(s0, caller))
    case Kill(victim, sig, willStop) => Refusable(SendSig(s0, caller, victim, sig, willStop))
    case SyncPctl => (SyncSigPctl(s0, caller), Ready(Done(0, 0)))
    case DisableSetpgidCall => (DisableSetpgid(s0, caller), Ready(Done(0, 0)))
    case SetResugid(ruid, euid) => (SetIds(s0, caller, ruid, euid), Ready(Done(0, 0)))
  }

  function Step(s: State, e: Event, order: Order, hit: Option<Pid>): (State, Poll) {
    match e
    case ForkEvent(parent, tid) => (Fork(s, parent, tid), Pending)
    case ThreadEvent(pid, tid) => (NewThread(s, pid, tid), Pending)
    case Call(n, caller, verb) => OnCall(s, n, caller, verb, order, hit)
    case CancelEvent(n) => Cancel(s, n)
    case Death(pid, tid, raw) => (ThreadDeath(s, pid, tid, raw, order), Pending)
    case WakeEvent => if s.awoken == [] then (s, Pending) else Wake(s, order, hit)
  }
}
