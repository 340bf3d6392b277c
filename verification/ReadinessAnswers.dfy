/** Which answer a request gets: the scheme's last reply to it, unless it was withdrawn or never asked. */
module ReadinessAnswers {
  import opened Prelude
  import opened Readiness

  // ---------------------------------------------------------------- single acts

  /** What the loop does, one thing at a time: a request comes in, or a pending one is tried again. */
  datatype Act = Got(request: Request) | Tried(id: Id)

  function Do(l: Loop, scheme: Scheme, a: Act): Loop {
    match a
    case Got(r) => Handle(l, scheme, r)
    case Tried(id) => if id in l.states then Poll(l, scheme, id).value else l
  }

  function DoAll(l: Loop, scheme: Scheme, acts: seq<Act>): Loop
    decreases acts
  {
    if acts == [] then l else DoAll(Do(l, scheme, acts[0]), scheme, acts[1..])
  }

  function Gets(rs: seq<Request>): seq<Act> { seq(|rs|, i requires 0 <= i < |rs| => Got(rs[i])) }
  function Tries(ids: seq<Id>): seq<Act> { seq(|ids|, i requires 0 <= i < |ids| => Tried(ids[i])) }

  function Acts(e: Event): seq<Act> {
    match e
    case Batch(rs) => Gets(rs)
    case PollAll(order) => Tries(order)
    case PollRequest(id) => [Tried(id)]
  }

  // ---------------------------------------------------------------- the log

  /**
   The request each question was asked for; for each answer, the request it is for, how many
   questions had been asked by then, and whether the request was being withdrawn; the requests
   pending, how often and when last each was asked.
   */
  datatype Note = Note(request: Request, asked: nat, withdrawn: bool)
  datatype Log = Log(questions: seq<Request>, notes: seq<Note>, held: map<Id, Held>)
  datatype Held = Held(request: Request, times: nat, last: nat)

  const NO_LOG := Log([], [], map[])

  /** The requests that ask for an answer. */
  predicate Asking(r: Request) { r.Call? || r.SendFd? || r.RecvFd? }

  /** The request an act is about. */
  function About(log: Log, a: Act): Option<Request> {
    match a
    case Got(r) => if Asking(r) then Some(r) else if r.Cancellation? && r.id in log.held then Some(log.held[r.id].request) else None
    case Tried(id) => if id in log.held then Some(log.held[id].request) else None
  }

  function IdOf(r: Request): Id
    requires Asking(r)
  {
    r.id
  }

  /** Keeps the log: all it looks at is whether a question was asked and whether an answer was given. */
  function Keep(log: Log, a: Act, before: Loop, after: Loop): Log {
    match About(log, a)
    case None => log
    case Some(r) =>
      var n := |log.questions|;
      var questions := if after.asked > before.asked then log.questions + [r] else log.questions;
      if |after.answers| > |before.answers| then
        var held := if a.Got? && Asking(a.request) then log.held else log.held - {if a.Got? then a.request.id else a.id};
        Log(questions, log.notes + [Note(r, |questions|, a.Got? && a.request.Cancellation?)], held)
      else if Asking(r) then
        var times := if a.Tried? && r.id in log.held then log.held[r.id].times + 1 else 1;
        Log(questions, log.notes, log.held[r.id := Held(r, times, n)])
      else log
  }

  function KeepAll(log: Log, l: Loop, scheme: Scheme, acts: seq<Act>): Log
    decreases acts
  {
    if acts == [] then log else KeepAll(Keep(log, acts[0], l, Do(l, scheme, acts[0])), Do(l, scheme, acts[0]), scheme, acts[1..])
  }

  // ---------------------------------------------------------------- which answer

  /** The request does not wait: the call says so, or it passes a descriptor on. */
  predicate Impatient(r: Request) {
    match r
    case Call(_, _, nonblock) => nonblock
    case RecvFd(_, nonblock) => nonblock
    case SendFd(_) => true
    case _ => false
  }

  predicate Supported(r: Request) { r.Call? ==> r.supported }

  /** The answer is the right one for the request it is for. */
  ghost predicate Right(scheme: Scheme, questions: seq<Request>, n: Note, a: Answer) {
    && Asking(n.request) && IdOf(n.request) == a.id
    && match a.outcome
       case Unsupported => !Supported(n.request) && !n.withdrawn
       case Canceled => n.withdrawn && Supported(n.request)
       case Replied(x) =>
         && Supported(n.request) && !n.withdrawn
         && 0 < n.asked <= |questions| && questions[n.asked - 1] == n.request
         && x == scheme(n.asked - 1)
         && (x == WouldBlock ==> Impatient(n.request))
  }

  ghost predicate AllRight(l: Loop, log: Log, scheme: Scheme) {
    && |log.notes| == |l.answers|
    && forall j {:trigger log.notes[j]} | 0 <= j < |log.notes| :: Right(scheme, log.questions, log.notes[j], l.answers[j])
  }

  /** What is pending was asked for, and was told to wait the last time; an impatient request is asked once. */
  ghost predicate Waiting(l: Loop, log: Log, scheme: Scheme, id: Id)
    requires id in l.states
  {
    && id in log.held
    && var h := log.held[id];
       && Asking(h.request) && IdOf(h.request) == id && Supported(h.request) && !h.request.SendFd?
       && l.states[id] == Impatient(h.request) && (Impatient(h.request) ==> h.times == 1 && h.request.RecvFd?)
       && h.last < |log.questions| && log.questions[h.last] == h.request && scheme(h.last) == WouldBlock
  }

  ghost predicate Faithful(l: Loop, log: Log, scheme: Scheme) {
    && |log.questions| == l.asked && log.held.Keys == l.states.Keys
    && AllRight(l, log, scheme)
    && forall id {:trigger Waiting(l, log, scheme, id)} | id in l.states :: Waiting(l, log, scheme, id)
  }

  // ---------------------------------------------------------------- every act

  /** More questions change no answer that was right. */
  lemma StillRight(scheme: Scheme, questions: seq<Request>, more: seq<Request>, n: Note, a: Answer)
    requires Right(scheme, questions, n, a)
    ensures Right(scheme, questions + more, n, a)
  {}

  lemma AllStillRight(l: Loop, log: Log, scheme: Scheme, t: Loop, log': Log, more: seq<Request>)
    requires AllRight(l, log, scheme) && log'.questions == log.questions + more && log'.notes == log.notes && t.answers == l.answers
    ensures AllRight(t, log', scheme)
  {
    forall j | 0 <= j < |log'.notes| ensures Right(scheme, log'.questions, log'.notes[j], t.answers[j]) {
      StillRight(scheme, log.questions, more, log.notes[j], l.answers[j]);
    }
  }

  lemma OneMoreRight(l: Loop, log: Log, scheme: Scheme, t: Loop, log': Log, more: seq<Request>, n: Note, a: Answer)
    requires AllRight(l, log, scheme) && log'.questions == log.questions + more && log'.notes == log.notes + [n] && t.answers == l.answers + [a]
    requires Right(scheme, log'.questions, n, a)
    ensures AllRight(t, log', scheme)
  {
    forall j | 0 <= j < |log'.notes| ensures Right(scheme, log'.questions, log'.notes[j], t.answers[j]) {
      if j < |log.notes| { StillRight(scheme, log.questions, more, log.notes[j], l.answers[j]); }
    }
  }

  lemma OthersWait(l: Loop, log: Log, scheme: Scheme, t: Loop, log': Log, more: seq<Request>, id: Id)
    requires forall o {:trigger Waiting(l, log, scheme, o)} | o in l.states :: Waiting(l, log, scheme, o)
    requires log'.questions == log.questions + more
    requires forall o | o in t.states && o != id :: o in l.states && t.states[o] == l.states[o] && o in log'.held && o in log.held && log'.held[o] == log.held[o]
    ensures forall o | o in t.states && o != id :: Waiting(t, log', scheme, o)
  {
    forall o | o in t.states && o != id ensures Waiting(t, log', scheme, o) { assert Waiting(l, log, scheme, o); }
  }

  /** A request that asks for an answer. */
  lemma GotKeeps(l: Loop, log: Log, scheme: Scheme, r: Request)
    requires Faithful(l, log, scheme) && Asking(r) && !Collides(l, scheme, r)
    ensures Faithful(Handle(l, scheme, r), Keep(log, Got(r), l, Handle(l, scheme, r)), scheme)
  {
    var t := Handle(l, scheme, r);
    var log' := Keep(log, Got(r), l, t);
    var more := if t.asked > l.asked then [r] else [];
    assert log.questions + [] == log.questions;
    if |t.answers| > |l.answers| {
      var n := Note(r, |log'.questions|, false);
      OneMoreRight(l, log, scheme, t, log', more, n, t.answers[|l.answers|]);
      forall o | o in t.states ensures Waiting(t, log', scheme, o) { assert Waiting(l, log, scheme, o); }
    } else {
      AllStillRight(l, log, scheme, t, log', more);
      OthersWait(l, log, scheme, t, log', more, r.id);
      assert Waiting(t, log', scheme, r.id);
    }
  }

  lemma CancelKeeps(l: Loop, log: Log, scheme: Scheme, id: Id)
    requires Faithful(l, log, scheme)
    ensures Faithful(Handle(l, scheme, Cancellation(id)), Keep(log, Got(Cancellation(id)), l, Handle(l, scheme, Cancellation(id))), scheme)
  {
    if id in l.states {
      assert Waiting(l, log, scheme, id);
      var t := Handle(l, scheme, Cancellation(id));
      var log' := Keep(log, Got(Cancellation(id)), l, t);
      assert log.questions + [] == log.questions;
      OneMoreRight(l, log, scheme, t, log', [], Note(log.held[id].request, |log.questions|, true), Answer(id, Canceled));
      OthersWait(l, log, scheme, t, log', [], id);
    }
  }

  lemma TriedKeeps(l: Loop, log: Log, scheme: Scheme, id: Id)
    requires Faithful(l, log, scheme)
    ensures Faithful(Do(l, scheme, Tried(id)), Keep(log, Tried(id), l, Do(l, scheme, Tried(id))), scheme)
  {
    if id in l.states {
      assert Waiting(l, log, scheme, id);
      var t, r := Do(l, scheme, Tried(id)), log.held[id].request;
      var log' := Keep(log, Tried(id), l, t);
      if |t.answers| > |l.answers| {
        OneMoreRight(l, log, scheme, t, log', [r], Note(r, |log.questions| + 1, false), t.answers[|l.answers|]);
        OthersWait(l, log, scheme, t, log', [r], id);
      } else {
        AllStillRight(l, log, scheme, t, log', [r]);
        OthersWait(l, log, scheme, t, log', [r], id);
        assert Waiting(t, log', scheme, id);
      }
    }
  }

  ghost predicate Clash(l: Loop, scheme: Scheme, a: Act) { a.Got? && Collides(l, scheme, a.request) }

  lemma DoKeeps(l: Loop, log: Log, scheme: Scheme, a: Act)
    requires Faithful(l, log, scheme) && !Clash(l, scheme, a)
    ensures Faithful(Do(l, scheme, a), Keep(log, a, l, Do(l, scheme, a)), scheme)
  {
    match a
    case Got(r) =>
      if Asking(r) { GotKeeps(l, log, scheme, r); } else if r.Cancellation? { CancelKeeps(l, log, scheme, r.id); }
    case Tried(id) => TriedKeeps(l, log, scheme, id);
  }

  ghost predicate NoClash(l: Loop, scheme: Scheme, acts: seq<Act>)
    decreases acts
  {
    acts == [] || (!Clash(l, scheme, acts[0]) && NoClash(Do(l, scheme, acts[0]), scheme, acts[1..]))
  }

  lemma {:induction false} ActsKeep(l: Loop, log: Log, scheme: Scheme, acts: seq<Act>)
    requires Faithful(l, log, scheme) && NoClash(l, scheme, acts)
    ensures Faithful(DoAll(l, scheme, acts), KeepAll(log, l, scheme, acts), scheme)
    decreases acts
  {
    if acts != [] {
      DoKeeps(l, log, scheme, acts[0]);
      ActsKeep(Do(l, scheme, acts[0]), Keep(log, acts[0], l, Do(l, scheme, acts[0])), scheme, acts[1..]);
    }
  }

  // ---------------------------------------------------------------- every run

  lemma {:induction false} BatchIsActs(l: Loop, scheme: Scheme, rs: seq<Request>)
    requires NoCollision(l, scheme, rs)
    ensures DoAll(l, scheme, Gets(rs)) == HandleAll(l, scheme, rs) && NoClash(l, scheme, Gets(rs))
    decreases rs
  {
    if rs != [] {
      assert Gets(rs)[1..] == Gets(rs[1..]);
      BatchIsActs(Handle(l, scheme, rs[0]), scheme, rs[1..]);
    }
  }

  lemma {:induction false} PollIsActs(l: Loop, scheme: Scheme, ids: seq<Id>)
    requires AllPending(l, ids)
    ensures DoAll(l, scheme, Tries(ids)) == PollEach(l, scheme, ids).0 && NoClash(l, scheme, Tries(ids))
    decreases ids
  {
    if ids != [] {
      assert Tries(ids)[1..] == Tries(ids[1..]);
      PollIsActs(Poll(l, scheme, ids[0]).value, scheme, ids[1..]);
    }
  }

  lemma EventIsActs(l: Loop, scheme: Scheme, e: Event)
    requires WellFed(l, scheme, e)
    ensures DoAll(l, scheme, Acts(e)) == Next(l, scheme, e) && NoClash(l, scheme, Acts(e))
  {
    match e
    case Batch(rs) => BatchIsActs(l, scheme, rs);
    case PollAll(order) =>
      ListsDistinct(order, l.states.Keys);
      PollIsActs(l, scheme, order);
    case PollRequest(id) =>
      assert [Tried(id)][1..] == [];
      assert DoAll(l, scheme, [Tried(id)]) == DoAll(Do(l, scheme, Tried(id)), scheme, []);
  }

  function RunLog(log: Log, l: Loop, scheme: Scheme, es: seq<Event>): Log
    decreases es
  {
    if es == [] then log else RunLog(KeepAll(log, l, scheme, Acts(es[0])), Next(l, scheme, es[0]), scheme, es[1..])
  }

  lemma {:induction false} RunFaithful(l: Loop, log: Log, scheme: Scheme, es: seq<Event>)
    requires Faithful(l, log, scheme) && WellFedRun(l, scheme, es)
    ensures Faithful(Run(l, scheme, es), RunLog(log, l, scheme, es), scheme)
    decreases es
  {
    if es != [] {
      EventIsActs(l, scheme, es[0]);
      ActsKeep(l, log, scheme, Acts(es[0]));
      RunFaithful(Next(l, scheme, es[0]), KeepAll(log, l, scheme, Acts(es[0])), scheme, es[1..]);
    }
  }

  /**
   In every run in which ids are not reused while pending, every answer is the right one: refused
   only if the call is unsupported, cancelled only while it is being withdrawn, and otherwise the
   scheme's reply to the last question asked, which was asked for that request; being told to wait
   is an answer only to requests that do not wait.  And whatever is pending was told to wait when
   it was last asked.
   */
  lemma RightAnswers(scheme: Scheme, es: seq<Event>)
    requires WellFedRun(FRESH, scheme, es)
    ensures
      var l, log := Run(FRESH, scheme, es), RunLog(NO_LOG, FRESH, scheme, es);
      && |log.questions| == l.asked && AllRight(l, log, scheme)
      && forall id | id in l.states :: Waiting(l, log, scheme, id)
  {
    RunFaithful(FRESH, NO_LOG, scheme, es);
    var l, log := Run(FRESH, scheme, es), RunLog(NO_LOG, FRESH, scheme, es);
    forall id | id in l.states ensures Waiting(l, log, scheme, id) {}
  }
}
