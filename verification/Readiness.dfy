/** The readiness-based request loop: every request is answered exactly once, or still pending. */
module Readiness {
  import opened Prelude

  type Id = nat

  /** What the scheme says when asked: not yet, or any result at all. */
  datatype Reply = WouldBlock | Result(value: int)

  /** The scheme's behaviour: its reply to the k-th question, whatever it depends on. */
  type Scheme = nat -> Reply

  datatype Request =
    | Call(id: Id, supported: bool, nonblock: bool)
    | Cancellation(id: Id)
    | OnClose
    | SendFd(id: Id)
    | RecvFd(id: Id, nonblock: bool)
    | Other

  datatype Outcome = Replied(reply: Reply) | Canceled | Unsupported

  datatype Answer = Answer(id: Id, outcome: Outcome)

  /** Pending operations with their non-blocking flag, all answers so far, and the requests they are for. */
  datatype Loop = Loop(states: map<Id, bool>, ready: seq<Id>, answers: seq<Answer>, asked: nat, received: seq<Id>)

  const FRESH := Loop(map[], [], [], 0, [])

  function Say(l: Loop, id: Id, o: Outcome): Loop { l.(answers := l.answers + [Answer(id, o)]) }
  function Ask(l: Loop): Loop { l.(asked := l.asked + 1) }
  function Receive(l: Loop, id: Id): Loop { l.(received := l.received + [id]) }
  function Suspend(l: Loop, id: Id, nonblock: bool): Loop { l.(states := l.states[id := nonblock]) }

  /** One request of a batch. */
  function Handle(l: Loop, scheme: Scheme, r: Request): Loop {
    match r
    case Call(id, supported, nonblock) =>
      var l1 := Receive(l, id);
      if !supported then Say(l1, id, Unsupported)
      else if scheme(l.asked) == WouldBlock && !nonblock then Suspend(Ask(l1), id, nonblock)
      else Say(Ask(l1), id, Replied(scheme(l.asked)))
    case Cancellation(id) => if id in l.states then Say(l.(states := l.states - {id}), id, Canceled) else l
    case SendFd(id) => Say(Ask(Receive(l, id)), id, Replied(scheme(l.asked)))
    case RecvFd(id, nonblock) =>
      var l1 := Ask(Receive(l, id));
      if scheme(l.asked) == WouldBlock then Suspend(l1, id, nonblock) else Say(l1, id, Replied(scheme(l.asked)))
    case _ => l
  }

  function HandleAll(l: Loop, scheme: Scheme, rs: seq<Request>): Loop
    decreases rs
  {
    if rs == [] then l else HandleAll(Handle(l, scheme, rs[0]), scheme, rs[1..])
  }

  /** Asks again for one pending request; None stands for the missing-id error. */
  function Poll(l: Loop, scheme: Scheme, id: Id): Option<Loop> {
    if id !in l.states then None
    else if scheme(l.asked) == WouldBlock && !l.states[id] then Some(Ask(l))
    else Some(Say(Ask(l.(states := l.states - {id})), id, Replied(scheme(l.asked))))
  }

  /** Polls the ids in turn and gives up at the first missing one. */
  function PollEach(l: Loop, scheme: Scheme, ids: seq<Id>): (Loop, bool)
    decreases ids
  {
    if ids == [] then (l, true)
    else match Poll(l, scheme, ids[0])
      case None => (l, false)
      case Some(l1) => PollEach(l1, scheme, ids[1..])
  }

  /** The order in which a hash map yields its keys. */
  ghost predicate Lists(ids: seq<Id>, keys: set<Id>) {
    multiset(ids) == multiset(keys)
  }

  // ---------------------------------------------------------------- the balance

  function Ids(answers: seq<Answer>): seq<Id> { seq(|answers|, i requires 0 <= i < |answers| => answers[i].id) }

  /** Each request received is accounted for by one answer or one pending operation. */
  ghost predicate Balanced(l: Loop) {
    multiset(Ids(l.answers)) + multiset(l.states.Keys) == multiset(l.received)
  }

  lemma SayAdds(l: Loop, id: Id, o: Outcome)
    ensures multiset(Ids(Say(l, id, o).answers)) == multiset(Ids(l.answers)) + multiset{id}
  {
    assert Ids(Say(l, id, o).answers) == Ids(l.answers) + [id];
  }

  /** The request comes with an id that is pending already, and blocks. */
  ghost predicate Collides(l: Loop, scheme: Scheme, r: Request) {
    match r
    case Call(id, supported, nonblock) => id in l.states && supported && scheme(l.asked) == WouldBlock && !nonblock
    case RecvFd(id, _) => id in l.states && scheme(l.asked) == WouldBlock
    case _ => false
  }

  lemma SuspendAdds(l: Loop, id: Id, nonblock: bool)
    ensures multiset(Suspend(l, id, nonblock).states.Keys) == multiset(l.states.Keys) + if id in l.states then multiset{} else multiset{id}
  {
    assert Suspend(l, id, nonblock).states.Keys == l.states.Keys + {id};
  }

  lemma RemoveTakes(l: Loop, id: Id)
    requires id in l.states
    ensures multiset(l.states.Keys) == multiset((l.states - {id}).Keys) + multiset{id}
  {
    assert l.states.Keys == (l.states - {id}).Keys + {id};
  }

  lemma AnsweredAtOnce(l: Loop, id: Id, o: Outcome)
    requires Balanced(l)
    ensures Balanced(Say(Receive(l, id), id, o)) && Balanced(Say(Ask(Receive(l, id)), id, o))
  {
    SayAdds(Receive(l, id), id, o);
    SayAdds(Ask(Receive(l, id)), id, o);
    ReceivedAdds(l, id);
  }

  lemma SuspendedIff(l: Loop, id: Id, nonblock: bool)
    requires Balanced(l)
    ensures Balanced(Suspend(Ask(Receive(l, id)), id, nonblock)) <==> id !in l.states
  {
    var t := Suspend(Ask(Receive(l, id)), id, nonblock);
    SuspendAdds(Ask(Receive(l, id)), id, nonblock);
    ReceivedAdds(l, id);
    assert multiset(t.received)[id] == multiset(l.received)[id] + 1;
  }

  lemma CallBalancesIff(l: Loop, scheme: Scheme, id: Id, supported: bool, nonblock: bool)
    requires Balanced(l)
    ensures Balanced(Handle(l, scheme, Call(id, supported, nonblock))) <==> !Collides(l, scheme, Call(id, supported, nonblock))
  {
    if supported && scheme(l.asked) == WouldBlock && !nonblock {
      SuspendedIff(l, id, nonblock);
    } else if supported {
      AnsweredAtOnce(l, id, Replied(scheme(l.asked)));
    } else {
      AnsweredAtOnce(l, id, Unsupported);
    }
  }

  lemma CancellationBalances(l: Loop, id: Id)
    requires Balanced(l) && id in l.states
    ensures Balanced(Say(l.(states := l.states - {id}), id, Canceled))
  {
    RemoveTakes(l, id);
    SayAdds(l.(states := l.states - {id}), id, Canceled);
  }

  /** Handling a request keeps the balance exactly unless its id collides with a pending one. */
  lemma HandleBalancesIff(l: Loop, scheme: Scheme, r: Request)
    requires Balanced(l)
    ensures Balanced(Handle(l, scheme, r)) <==> !Collides(l, scheme, r)
  {
    match r
    case Call(id, supported, nonblock) => CallBalancesIff(l, scheme, id, supported, nonblock);
    case Cancellation(id) => if id in l.states { CancellationBalances(l, id); }
    case SendFd(id) => AnsweredAtOnce(l, id, Replied(scheme(l.asked)));
    case RecvFd(id, nonblock) =>
      if scheme(l.asked) == WouldBlock { SuspendedIff(l, id, nonblock); } else { AnsweredAtOnce(l, id, Replied(scheme(l.asked))); }
    case _ =>
  }

  lemma ReceivedAdds(l: Loop, id: Id)
    ensures multiset(Receive(l, id).received) == multiset(l.received) + multiset{id}
  {}

  lemma PollBalances(l: Loop, scheme: Scheme, id: Id)
    requires Balanced(l) && id in l.states
    ensures Poll(l, scheme, id).Some? && Balanced(Poll(l, scheme, id).value)
    ensures Poll(l, scheme, id).value.states.Keys <= l.states.Keys && l.states.Keys <= Poll(l, scheme, id).value.states.Keys + {id}
  {
    RemoveTakes(l, id);
    SayAdds(Ask(l.(states := l.states - {id})), id, Replied(scheme(l.asked)));
  }

  ghost predicate AllPending(l: Loop, ids: seq<Id>) {
    (forall i, j | 0 <= i < j < |ids| :: ids[i] != ids[j]) && forall i | 0 <= i < |ids| :: ids[i] in l.states
  }

  /** Polling every pending request, in any order, asks each once and never misses one. */
  lemma {:induction false} PollEachFinds(l: Loop, scheme: Scheme, ids: seq<Id>)
    requires AllPending(l, ids)
    ensures
      var (t, ok) := PollEach(l, scheme, ids);
      ok && t.asked == l.asked + |ids| && t.states.Keys <= l.states.Keys
    decreases ids
  {
    if ids != [] { PollEachFinds(Poll(l, scheme, ids[0]).value, scheme, ids[1..]); }
  }

  /** Polling gives up at the first id that is not pending, having asked once for each before it. */
  lemma {:induction false} PollEachOkIff(l: Loop, scheme: Scheme, ids: seq<Id>, k: nat)
    requires forall i, j | 0 <= i < j < |ids| :: ids[i] != ids[j]
    requires k <= |ids| && AllPending(l, ids[..k]) && (k < |ids| ==> ids[k] !in l.states)
    ensures
      var (t, ok) := PollEach(l, scheme, ids);
      (ok <==> k == |ids|) && t.asked == l.asked + k && t == PollEach(l, scheme, ids[..k]).0
    decreases k
  {
    if k > 0 {
      assert ids[..k][0] == ids[0] && ids[..k][1..] == ids[1..][..k - 1];
      PollEachOkIff(Poll(l, scheme, ids[0]).value, scheme, ids[1..], k - 1);
    }
  }

  lemma {:induction false} PollEachBalances(l: Loop, scheme: Scheme, ids: seq<Id>)
    requires Balanced(l) && AllPending(l, ids)
    ensures Balanced(PollEach(l, scheme, ids).0)
    decreases ids
  {
    if ids != [] {
      PollBalances(l, scheme, ids[0]);
      PollEachBalances(Poll(l, scheme, ids[0]).value, scheme, ids[1..]);
    }
  }

  lemma ListsDistinct(ids: seq<Id>, keys: set<Id>)
    requires Lists(ids, keys)
    ensures forall i, j | 0 <= i < j < |ids| :: ids[i] != ids[j]
    ensures forall i | 0 <= i < |ids| :: ids[i] in keys
  {
    forall i | 0 <= i < |ids| ensures ids[i] in keys { assert ids[i] in multiset(ids); }
    forall i, j | 0 <= i < j < |ids| ensures ids[i] != ids[j] {
      assert ids == ids[..i] + [ids[i]] + ids[i + 1..];
      assert ids[j] == ids[i + 1..][j - i - 1];
      assert multiset(ids) == multiset(ids[..i]) + multiset{ids[i]} + multiset(ids[i + 1..]);
      assert multiset(keys)[ids[i]] <= 1;
    }
  }

  // ---------------------------------------------------------------- every run

  datatype Event = Batch(requests: seq<Request>) | PollAll(order: seq<Id>) | PollRequest(id: Id)

  function Next(l: Loop, scheme: Scheme, e: Event): Loop {
    match e
    case Batch(rs) => HandleAll(l, scheme, rs)
    case PollAll(order) => PollEach(l, scheme, order).0
    case PollRequest(id) => if Poll(l, scheme, id).Some? then Poll(l, scheme, id).value else l
  }

  /** Ids are not reused while pending, and hash maps yield each key once. */
  ghost predicate WellFed(l: Loop, scheme: Scheme, e: Event) {
    match e
    case Batch(rs) => NoCollision(l, scheme, rs)
    case PollAll(order) => Lists(order, l.states.Keys)
    case PollRequest(_) => true
  }

  ghost predicate NoCollision(l: Loop, scheme: Scheme, rs: seq<Request>)
    decreases rs
  {
    rs == [] || (!Collides(l, scheme, rs[0]) && NoCollision(Handle(l, scheme, rs[0]), scheme, rs[1..]))
  }

  lemma {:induction false} BatchBalances(l: Loop, scheme: Scheme, rs: seq<Request>)
    requires Balanced(l) && NoCollision(l, scheme, rs)
    ensures Balanced(HandleAll(l, scheme, rs))
    decreases rs
  {
    if rs != [] {
      HandleBalancesIff(l, scheme, rs[0]);
      BatchBalances(Handle(l, scheme, rs[0]), scheme, rs[1..]);
    }
  }

  lemma NextBalances(l: Loop, scheme: Scheme, e: Event)
    requires Balanced(l) && WellFed(l, scheme, e)
    ensures Balanced(Next(l, scheme, e))
  {
    match e
    case Batch(rs) => BatchBalances(l, scheme, rs);
    case PollAll(order) =>
      ListsDistinct(order, l.states.Keys);
      PollEachBalances(l, scheme, order);
    case PollRequest(id) => if id in l.states { PollBalances(l, scheme, id); }
  }

  function Run(l: Loop, scheme: Scheme, es: seq<Event>): Loop
    decreases es
  {
    if es == [] then l else Run(Next(l, scheme, es[0]), scheme, es[1..])
  }

  ghost predicate WellFedRun(l: Loop, scheme: Scheme, es: seq<Event>)
    decreases es
  {
    es == [] || (WellFed(l, scheme, es[0]) && WellFedRun(Next(l, scheme, es[0]), scheme, es[1..]))
  }

  lemma {:induction false} RunBalances(l: Loop, scheme: Scheme, es: seq<Event>)
    requires Balanced(l) && WellFedRun(l, scheme, es)
    ensures Balanced(Run(l, scheme, es))
    decreases es
  {
    if es != [] {
      NextBalances(l, scheme, es[0]);
      RunBalances(Next(l, scheme, es[0]), scheme, es[1..]);
    }
  }

  /** A request whose id came once is pending and unanswered, or answered once and not pending. */
  lemma ExactlyOneAnswer(scheme: Scheme, es: seq<Event>, id: Id)
    requires WellFedRun(FRESH, scheme, es)
    ensures
      var l := Run(FRESH, scheme, es);
      && multiset(Ids(l.answers))[id] + (if id in l.states then 1 else 0) == multiset(l.received)[id]
      && (multiset(l.received)[id] == 1 ==> (id in l.states <==> id !in Ids(l.answers)) && multiset(Ids(l.answers))[id] <= 1)
  {
    assert Ids([]) == [];
    RunBalances(FRESH, scheme, es);
    var l := Run(FRESH, scheme, es);
    assert Balanced(l);
    assert multiset(Ids(l.answers))[id] + multiset(l.states.Keys)[id] == multiset(l.received)[id];
    assert id in multiset(Ids(l.answers)) <==> id in Ids(l.answers);
  }

  /** In every run, polling all pending requests never comes upon a missing id. */
  lemma PollAllFindsAll(scheme: Scheme, es: seq<Event>, order: seq<Id>)
    requires Lists(order, Run(FRESH, scheme, es).states.Keys)
    ensures
      var l := Run(FRESH, scheme, es);
      PollEach(l, scheme, order).1 && PollEach(l, scheme, order).0.asked == l.asked + |order|
  {
    var l := Run(FRESH, scheme, es);
    ListsDistinct(order, l.states.Keys);
    PollEachFinds(l, scheme, order);
  }

  /** Reusing a pending id loses an answer: two requests received, one operation pending, no answer. */
  lemma ReusedIdLosesAnswer()
    ensures
      var never := (k: nat) => WouldBlock;
      var l := HandleAll(FRESH, never, [Call(1, true, false), Call(1, true, false)]);
      l.received == [1, 1] && l.states.Keys == {1} && l.answers == []
  {
    var never := (k: nat) => WouldBlock;
    var r := Call(1, true, false);
    assert [r, r][1..] == [r] && [r][1..] == [];
    var l1 := Handle(FRESH, never, r);
    assert HandleAll(FRESH, never, [r, r]) == HandleAll(l1, never, [r]);
    assert HandleAll(l1, never, [r]) == HandleAll(Handle(l1, never, r), never, []);
  }

  // ---------------------------------------------------------------- the loop itself

  class ReadinessBased {
    var states: map<Id, bool>
    var readyQueue: seq<Id>
    var responsesToWrite: seq<Answer>
    /** How often the scheme has been asked. */
    var asked: nat
    /** Responses already handed to the kernel, and the requests it has sent. */
    ghost var written: seq<Answer>
    ghost var received: seq<Id>

    ghost function Model(): Loop
      reads this
    {
      Loop(states, readyQueue, written + responsesToWrite, asked, received)
    }

    constructor ()
      ensures Model() == FRESH && responsesToWrite == []
    {
      states, readyQueue, responsesToWrite, asked := map[], [], [], 0;
      written, received := [], [];
    }

    method Respond(id: Id, o: Outcome)
      modifies this`responsesToWrite
      ensures Model() == Say(old(Model()), id, o)
    {
      responsesToWrite := responsesToWrite + [Answer(id, o)];
    }

    /** The scheme's next reply. */
    method AskScheme(scheme: Scheme) returns (reply: Reply)
      modifies this`asked
      ensures reply == scheme(old(asked)) && Model() == Ask(old(Model()))
    {
      reply := scheme(asked);
      asked := asked + 1;
    }

    method HandleRequest(scheme: Scheme, r: Request)
      modifies this
      ensures Model() == Handle(old(Model()), scheme, r) && readyQueue == old(readyQueue)
    {
      match r {
        case Cancellation(id) =>
          if id in states {
            states := states - {id};
            Respond(id, Canceled);
          }
        case OnClose =>
        case SendFd(id) =>
          received := received + [id];
          var reply := AskScheme(scheme);
          Respond(id, Replied(reply));
        case RecvFd(id, nonblock) =>
          received := received + [id];
          var reply := AskScheme(scheme);
          if reply == WouldBlock { states := states[id := nonblock]; } else { Respond(id, Replied(reply)); }
        case Call(id, supported, nonblock) =>
          received := received + [id];
          if !supported {
            Respond(id, Unsupported);
          } else {
            var reply := AskScheme(scheme);
            if reply == WouldBlock && !nonblock { states := states[id := nonblock]; } else { Respond(id, Replied(reply)); }
          }
        case Other =>
      }
    }

    method ReadAndProcessRequests(scheme: Scheme, requestsRead: seq<Request>)
      modifies this
      ensures Model() == HandleAll(old(Model()), scheme, requestsRead)
    {
      for i := 0 to |requestsRead|
        invariant HandleAll(Model(), scheme, requestsRead[i..]) == HandleAll(old(Model()), scheme, requestsRead)
      {
        assert requestsRead[i..][0] == requestsRead[i] && requestsRead[i..][1..] == requestsRead[i + 1..];
        HandleRequest(scheme, requestsRead[i]);
      }
    }

    /** False stands for the missing-id error. */
    method PollRequestInner(scheme: Scheme, id: Id) returns (found: bool)
      modifies this
      ensures found <==> id in old(states)
      ensures Model() == if found then Poll(old(Model()), scheme, id).value else old(Model())
    {
      if id !in states { return false; }
      var nonblock := states[id];
      states := states - {id};
      var reply := AskScheme(scheme);
      if reply == WouldBlock && !nonblock {
        states := states[id := nonblock];
        assert states == old(states);
      } else {
        Respond(id, Replied(reply));
      }
      found := true;
    }

    /** Drains the ready queue; an error empties it too. */
    method PollReadyRequests(scheme: Scheme) returns (ok: bool)
      modifies this
      ensures readyQueue == []
      ensures
        var (l, fine) := PollEach(old(Model()).(ready := []), scheme, old(readyQueue));
        Model() == l && ok == fine
    {
      var queue := readyQueue;
      readyQueue := [];
      for i := 0 to |queue|
        invariant readyQueue == []
        invariant PollEach(Model(), scheme, queue[i..]) == PollEach(old(Model()).(ready := []), scheme, queue)
      {
        assert queue[i..][0] == queue[i] && queue[i..][1..] == queue[i + 1..];
        var found := PollRequestInner(scheme, queue[i]);
        if !found { return false; }
      }
      ok := true;
    }

    /** Polls every pending request, in the order the hash map yields them. */
    method PollAllRequests(scheme: Scheme) returns (ok: bool, ghost order: seq<Id>)
      modifies this
      ensures ok && readyQueue == [] && Lists(order, old(states).Keys)
      ensures asked == old(asked) + |old(states)| && (old(Balanced(Model())) ==> Balanced(Model()))
      ensures Model() == PollEach(old(Model()).(ready := []), scheme, order).0
    {
      readyQueue := [];
      var keys := states.Keys;
      while keys != {}
        invariant keys <= states.Keys && Lists(readyQueue, states.Keys - keys)
        invariant states == old(states) && Model() == old(Model()).(ready := readyQueue)
        decreases keys
      {
        var id :| id in keys;
        assert states.Keys - (keys - {id}) == (states.Keys - keys) + {id};
        keys := keys - {id};
        readyQueue := readyQueue + [id];
      }
      assert states.Keys - {} == states.Keys;
      order := readyQueue;
      assert |order| == |multiset(order)| == |states.Keys| == |states|;
      ListsDistinct(order, states.Keys);
      PollEachFinds(Model().(ready := []), scheme, order);
      if Balanced(Model()) { PollEachBalances(Model().(ready := []), scheme, order); }
      ok := PollReadyRequests(scheme);
    }

    method WriteResponses()
      modifies this`responsesToWrite, this`written
      ensures responsesToWrite == [] && Model() == old(Model())
    {
      written := written + responsesToWrite;
      responsesToWrite := [];
    }
  }
}
