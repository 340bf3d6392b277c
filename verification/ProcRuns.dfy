/** Runs of the process manager from the moment init is claimed. */
module ProcRuns {
  import opened Prelude
  import opened ProcModel

  /** An event together with everything the step takes from outside. */
  datatype Input = Input(event: Event, order: Order, hit: Option<Pid>)

  function Next(s: State, i: Input): State {
    Step(s, i.event, i.order, i.hit).0
  }

  function Run(s: State, ins: seq<Input>): State
    decreases ins
  {
    if ins == [] then s else Run(Next(s, ins[0]), ins[1..])
  }

  lemma {:induction false} RunJoin(s: State, ins: seq<Input>, more: seq<Input>)
    ensures Run(s, ins + more) == Run(Run(s, ins), more)
    decreases ins
  {
    if ins == [] {
      assert ins + more == more;
    } else {
      assert (ins + more)[1..] == ins[1..] + more;
      RunJoin(Next(s, ins[0]), ins[1..], more);
    }
  }

  /** `ok` holds of every step of the run. */
  ghost predicate Along(s: State, ins: seq<Input>, ok: (State, Input) -> bool)
    decreases ins
  {
    ins == [] || (ok(s, ins[0]) && Along(Next(s, ins[0]), ins[1..], ok))
  }

  /** The process whose exit the step may complete. */
  function Ender(s: State, e: Event): Option<Pid> {
    match e
    case Call(_, caller, Exit(_)) => Some(caller)
    case Death(pid, _, _) => Some(pid)
    case WakeEvent =>
      if s.awoken != [] && s.awoken[0] in s.states && s.states[s.awoken[0]].AwaitingThreadsTermination?
      then Some(s.states[s.awoken[0]].pid)
      else None
    case _ => None
  }

  /** The waitpid request a step looks at, with the tables it looks at. */
  function Examined(s: State, e: Event): (r: Option<(State, VirtualId)>)
    ensures r.Some? ==> r.value.1 in r.value.0.states && r.value.0.states[r.value.1].AwaitingStatusChange?
  {
    match e
    case Call(n, caller, Waitpid(target, flags)) =>
      var id, s0 := KernelId(n), Forget(s, KernelId(n));
      Some((s0.(states := s0.states[id := AwaitingStatusChange(caller, target, flags)]), id))
    case WakeEvent =>
      if s.awoken != [] && s.awoken[0] in s.states && s.states[s.awoken[0]].AwaitingStatusChange?
      then Some((s.(awoken := s.awoken[1..]), s.awoken[0]))
      else None
    case _ => None
  }

  /** The walks over children and over affected groups miss nobody. */
  ghost predicate Covers(s: State, cur: Pid, order: Order) {
    && (forall p | p in s.procs :: IsChild(s, p, cur) ==> p in order.kids)
    && (forall g | g in s.groups :: Affected(s, cur, g) ==> g in order.pgrps)
  }

  ghost predicate WalksAll(s: State, i: Input) {
    Ender(s, i.event).Some? ==> Covers(s, Ender(s, i.event).value, i.order)
  }

  /** The kernel does not reuse the id of a call that is still pending. */
  ghost predicate FreshId(s: State, i: Input) {
    i.event.Call? && KernelId(i.event.n) in s.states ==> s.states[KernelId(i.event.n)].Placeholder?
  }

  /** Init neither calls exit nor loses its last thread, and stays root. */
  ghost predicate InitLives(s: State, i: Input) {
    && !(i.event.Call? && i.event.caller == INIT && i.event.verb.Exit?)
    && !(i.event.Call? && i.event.caller == INIT && i.event.verb.SetResugid? && i.event.verb.euid != 0)
    && !(i.event.Death? && i.event.pid == INIT && INIT in s.procs && s.procs[INIT].threads <= {i.event.tid})
  }

  /** Nobody forks on behalf of a process that has already exited. */
  ghost predicate NoZombieFork(s: State, i: Input) {
    i.event.ForkEvent? && i.event.parent in s.procs ==> !s.procs[i.event.parent].status.Exited?
  }
}
