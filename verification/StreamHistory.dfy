/** What was written on one side is what was read on the other plus what is still queued. */
module StreamHistory {
  import opened Prelude
  import Bytes
  import opened StreamModel
  import opened StreamQueue
  import opened StreamPeers

  /** All bytes each socket has written on its current connection, and all bytes it has read. */
  datatype History = History(sent: map<Id, seq<byte>>, got: map<Id, seq<byte>>)

  function Lookup(m: map<Id, seq<byte>>, id: Id): seq<byte> { if id in m then m[id] else [] }

  function Wrote(h: History, id: Id, buf: seq<byte>): History { h.(sent := h.sent[id := Lookup(h.sent, id) + buf]) }
  function Got(h: History, id: Id, out: seq<byte>): History {
    if out == [] then h else h.(got := h.got[id := Lookup(h.got, id) + out])
  }

  /** A connect that takes effect starts a new connection. */
  function Restart(h: History, id: Id): History { History(h.sent[id := []], h.got[id := []]) }

  function NextHistory(s: State, h: History, e: Event): History {
    match e
    case ConnectEvent(c, l) =>
      var t := Connect(s, c, l).0;
      if t != s && c in t.socks && t.socks[c].phase.Connecting? then Restart(h, c) else h
    case WriteEvent(id, buf) => if Write(s, id, buf).1.Ok? then Wrote(h, id, buf) else h
    case SendMsgEvent(id, buf) => if SendMsg(s, id, buf).1.Ok? then Wrote(h, id, buf) else h
    case ReadEvent(id, room, nb) => Got(h, id, Read(s, id, room, nb).2)
    case RecvMsgEvent(id, room, nb) => Got(h, id, RecvMsg(s, id, room, nb).2)
    case _ => h
  }

  // ---------------------------------------------------------------- the invariant

  ghost predicate Accounted(s: State, h: History, a: Id)
    requires a in s.socks
  {
    var k := s.socks[a];
    k.conn.Some? ==>
      && (k.phase.Connecting? ==> Lookup(h.sent, a) == Flatten(k.conn.value.packets) && Lookup(h.got, a) == [])
      && (k.phase.Connected() ==> Lookup(h.sent, k.conn.value.peer) == Lookup(h.got, a) + Flatten(k.conn.value.packets))
  }

  ghost predicate Integrity(s: State, h: History) {
    && (forall a {:trigger Accounted(s, h, a)} | a in s.socks :: Accounted(s, h, a))
    && (forall a | a in h.sent || a in h.got :: a < s.nextId)
  }

  // ---------------------------------------------------------------- connecting and accepting

  lemma ConnectIntact(s: State, h: History, c: Id, l: Id)
    requires PeersAgree(s) && Integrity(s, h) && OneRole(s, ConnectEvent(c, l))
    ensures Integrity(Connect(s, c, l).0, NextHistory(s, h, ConnectEvent(c, l)))
  {
    var t, h' := Connect(s, c, l).0, NextHistory(s, h, ConnectEvent(c, l));
    if t != s {
      assert SockOk(s, c) && SockOk(s, l);
      forall a | a in t.socks ensures Accounted(t, h', a) {
        assert Accounted(s, h, a) && SockOk(s, a);
      }
    }
  }

  lemma PairIntact(s: State, h: History, base: Id)
    requires PeersAgree(s) && Integrity(s, h)
    ensures Integrity(SocketPair(s, base).0, h)
  {
    var t := SocketPair(s, base).0;
    if t != s {
      assert s.nextId !in s.socks by { assert s.nextId in s.socks ==> SockOk(s, s.nextId); }
      forall a | a in t.socks ensures Accounted(t, h, a) { if a != s.nextId { assert Accounted(s, h, a); } }
    }
  }

  /** The parked bytes become the first bytes the accepted socket will read. */
  lemma AcceptOneIntact(s: State, h: History, l: Id, c: Id)
    requires Integrity(s, h) && l in s.socks && c in s.socks && c != l && s.nextId !in s.socks
    requires s.socks[c].phase.Connecting? && s.socks[c].conn.Some? && s.socks[c].conn.value.peer == l
    ensures Integrity(AcceptOne(s, l, c).0, h)
  {
    var t := AcceptOne(s, l, c).0;
    assert Accounted(s, h, c);
    forall a | a in t.socks ensures Accounted(t, h, a) {
      if a == s.nextId {
        assert Lookup(h.got, a) == [];
        assert [] + Flatten(s.socks[c].conn.value.packets) == Flatten(s.socks[c].conn.value.packets);
      } else {
        assert Accounted(s, h, a);
      }
    }
  }

  lemma {:induction false} AcceptIntact(s: State, h: History, l: Id)
    requires PeersAgree(s) && Integrity(s, h) && l in s.socks
    ensures Integrity(Accept(s, l).0, h)
    decreases |s.socks[l].awaiting|
  {
    var q := s.socks[l].awaiting;
    if q != [] {
      var c, s1 := q[0], Put(s, l, s.socks[l].(awaiting := q[1..]));
      forall a | a in s1.socks ensures Accounted(s1, h, a) { assert Accounted(s, h, a); }
      assert QueueOk(s, l) && ClientOk(s, l, c);
      assert s.nextId in s.socks ==> SockOk(s, s.nextId);
      PopKeepsQueues(s, l);
      if c !in s1.socks {
        forall a | a in s1.socks ensures SockOk(s1, a) { assert a != c; }
        AcceptIntact(s1, h, l);
      } else {
        assert SockOk(s, c) && SockOk(s, l);
        AcceptOneIntact(s1, h, l, c);
        AcceptOneKeeps(s1, l, c);
      }
    }
  }

  lemma ListenIntact(s: State, h: History, id: Id)
    requires PeersAgree(s) && Integrity(s, h)
    ensures Integrity(Listen(s, id).0, h)
  {
    if id in s.socks {
      if s.socks[id].phase.Listening? {
        AcceptIntact(s, h, id);
      } else if s.socks[id].phase.Unbound? || s.socks[id].phase.Bound? {
        var s1 := Put(s, id, s.socks[id].(phase := Listening));
        assert SockOk(s, id);
        assert s1 == Put(s, id, s.socks[id].(phase := Listening, token := s.socks[id].token));
        StartListeningKeeps(s, id, s.socks[id].token);
        forall a | a in s1.socks ensures Accounted(s1, h, a) { assert Accounted(s, h, a); }
        AcceptIntact(s1, h, id);
      }
    }
  }

  // ---------------------------------------------------------------- data

  /** `to` is where bytes of `sender` go: to its peer, or parked with itself until it is accepted. */
  ghost predicate Routes(s: State, sender: Id, to: Id) {
    && sender in s.socks && to in s.socks && s.socks[to].conn.Some?
    && ((to == sender && s.socks[to].phase.Connecting?)
        || (s.socks[to].phase.Connected() && s.socks[to].conn.value.peer == sender))
  }

  lemma DeliverAccounted(s: State, h: History, sender: Id, to: Id, buf: seq<byte>)
    requires Routes(s, sender, to) && SockOk(s, to) && Accounted(s, h, to)
    ensures Accounted(Deliver(s, to, buf), Wrote(h, sender, buf), to)
  {
    AppendExact(s.socks[to].conn.value, buf);
    var queued := Flatten(s.socks[to].conn.value.packets);
    assert (Lookup(h.got, to) + queued) + buf == Lookup(h.got, to) + (queued + buf);
  }

  lemma DeliverOthers(s: State, h: History, sender: Id, to: Id, buf: seq<byte>, a: Id)
    requires Routes(s, sender, to) && SockOk(s, to) && a in s.socks && a != to && SockOk(s, a) && Accounted(s, h, a)
    ensures Accounted(Deliver(s, to, buf), Wrote(h, sender, buf), a)
  {
    assert Deliver(s, to, buf).socks[a] == s.socks[a];
  }

  lemma DeliverIntact(s: State, h: History, sender: Id, to: Id, buf: seq<byte>)
    requires PeersAgree(s) && Integrity(s, h) && Routes(s, sender, to)
    ensures Integrity(Deliver(s, to, buf), Wrote(h, sender, buf))
  {
    assert SockOk(s, sender) && SockOk(s, to) && Accounted(s, h, to);
    forall a | a in s.socks ensures Accounted(Deliver(s, to, buf), Wrote(h, sender, buf), a) {
      assert Accounted(s, h, a) && SockOk(s, a);
      if a == to { DeliverAccounted(s, h, sender, to, buf); } else { DeliverOthers(s, h, sender, to, buf, a); }
    }
  }

  lemma WriteIntact(s: State, h: History, id: Id, buf: seq<byte>)
    requires PeersAgree(s) && Integrity(s, h)
    ensures Integrity(Write(s, id, buf).0, NextHistory(s, h, WriteEvent(id, buf)))
  {
    if Write(s, id, buf).1.Ok? {
      var p := PeerOf(s, id).n;
      assert SockOk(s, id) && SockOk(s, p);
      if s.socks[p].phase.Listening? { DeliverIntact(s, h, id, id, buf); } else { DeliverIntact(s, h, id, p, buf); }
    } else {
      assert Write(s, id, buf).0 == s;
    }
  }

  lemma SendMsgIntact(s: State, h: History, id: Id, buf: seq<byte>)
    requires PeersAgree(s) && Integrity(s, h)
    ensures Integrity(SendMsg(s, id, buf).0, NextHistory(s, h, SendMsgEvent(id, buf)))
  {
    if SendMsg(s, id, buf).1.Ok? {
      var p := PeerOf(s, id).n;
      assert SockOk(s, id) && SockOk(s, p);
      DeliverIntact(s, h, id, p, buf);
    } else {
      assert SendMsg(s, id, buf).0 == s;
    }
  }

  lemma GotMore(h: History, id: Id, out: seq<byte>)
    ensures Lookup(Got(h, id, out).got, id) == Lookup(h.got, id) + out && Got(h, id, out).sent == h.sent
  {
    assert out == [] ==> Lookup(h.got, id) + out == Lookup(h.got, id);
  }

  /** What is consumed and what is left make up what was queued. */
  lemma ConsumeSplits(s: State, id: Id, n: nat)
    requires id in s.socks && s.socks[id].phase.Connected() && s.socks[id].conn.Some? && SockOk(s, id)
    ensures
      var (t, out) := Consume(s, id, n);
      && id in t.socks && t.socks[id].phase == s.socks[id].phase && t.socks[id].conn.Some?
      && t.socks[id].conn.value.peer == s.socks[id].conn.value.peer
      && Flatten(s.socks[id].conn.value.packets) == out + Flatten(t.socks[id].conn.value.packets)
  {
    TakeExact(s.socks[id].conn.value.packets, n);
  }

  lemma ConsumeAccounted(s: State, h: History, id: Id, n: nat)
    requires id in s.socks && s.socks[id].phase.Connected() && s.socks[id].conn.Some?
    requires SockOk(s, id) && Accounted(s, h, id)
    ensures Accounted(Consume(s, id, n).0, Got(h, id, Consume(s, id, n).1), id)
  {
    var (t, out) := Consume(s, id, n);
    ConsumeSplits(s, id, n);
    GotMore(h, id, out);
    Bytes.Assoc(Lookup(h.got, id), out, Flatten(t.socks[id].conn.value.packets));
  }

  lemma ConsumeIntact(s: State, h: History, id: Id, n: nat)
    requires PeersAgree(s) && Integrity(s, h) && id in s.socks && s.socks[id].phase.Connected() && s.socks[id].conn.Some?
    ensures Integrity(Consume(s, id, n).0, Got(h, id, Consume(s, id, n).1))
  {
    var (t, out) := Consume(s, id, n);
    assert SockOk(s, id);
    forall a | a in t.socks ensures Accounted(t, Got(h, id, out), a) {
      assert Accounted(s, h, a);
      if a == id { ConsumeAccounted(s, h, id, n); }
    }
  }

  lemma ReadIntact(s: State, h: History, id: Id, n: nat, nb: bool)
    requires PeersAgree(s) && Integrity(s, h)
    ensures Integrity(Read(s, id, n, nb).0, NextHistory(s, h, ReadEvent(id, n, nb)))
    ensures Integrity(RecvMsg(s, id, n, nb).0, NextHistory(s, h, RecvMsgEvent(id, n, nb)))
  {
    if id in s.socks && s.socks[id].phase.Connected() && s.socks[id].conn.Some? { ConsumeIntact(s, h, id, n); }
  }

  // ---------------------------------------------------------------- every step, every run

  lemma CloseIntact(s: State, h: History, id: Id)
    requires Integrity(s, h)
    ensures Integrity(Close(s, id), h)
  {
    if id in s.socks {
      var s1, t := s.(socks := s.socks - {id}), Close(s, id);
      MarkClosedEffect(s1, s.socks[id].awaiting, id);
      forall a | a in t.socks ensures Accounted(t, h, a) {
        assert Accounted(s, h, a);
        MarkClosedEffect(s1, s.socks[id].awaiting, a);
      }
    }
  }

  lemma NextIntact(s: State, h: History, e: Event)
    requires PeersAgree(s) && Integrity(s, h) && OneRole(s, e)
    ensures Integrity(Next(s, e), NextHistory(s, h, e))
  {
    var t := Next(s, e);
    match e
    case ConnectEvent(c, l) => ConnectIntact(s, h, c, l);
    case PairEvent(base) => PairIntact(s, h, base);
    case ListenEvent(id) => ListenIntact(s, h, id);
    case WriteEvent(id, buf) => WriteIntact(s, h, id, buf);
    case SendMsgEvent(id, buf) => SendMsgIntact(s, h, id, buf);
    case ReadEvent(id, room, nb) => ReadIntact(s, h, id, room, nb);
    case RecvMsgEvent(id, room, nb) => ReadIntact(s, h, id, room, nb);
    case CloseEvent(id) => CloseIntact(s, h, id);
    case BindEvent(id) => forall a | a in t.socks ensures Accounted(t, h, a) { assert Accounted(s, h, a); }
    case SetFlagsEvent(_, _) => forall a | a in t.socks ensures Accounted(t, h, a) { assert Accounted(s, h, a); }
    case OpenEvent(_) => forall a | a in t.socks ensures Accounted(t, h, a) { if a != s.nextId { assert Accounted(s, h, a); } }
  }

  function Run(s: State, es: seq<Event>): State
    decreases es
  {
    if es == [] then s else Run(Next(s, es[0]), es[1..])
  }

  function RunHistory(s: State, h: History, es: seq<Event>): History
    decreases es
  {
    if es == [] then h else RunHistory(Next(s, es[0]), NextHistory(s, h, es[0]), es[1..])
  }

  ghost predicate RolesKept(s: State, es: seq<Event>)
    decreases es
  {
    es == [] || (OneRole(s, es[0]) && RolesKept(Next(s, es[0]), es[1..]))
  }

  const START := State(map[], 0)
  const NO_HISTORY := History(map[], map[])

  lemma {:induction false} RunIntact(s: State, h: History, es: seq<Event>)
    requires PeersAgree(s) && Integrity(s, h) && RolesKept(s, es)
    ensures PeersAgree(Run(s, es)) && Integrity(Run(s, es), RunHistory(s, h, es))
    decreases es
  {
    if es != [] {
      NextKeeps(s, es[0]);
      NextIntact(s, h, es[0]);
      RunIntact(Next(s, es[0]), NextHistory(s, h, es[0]), es[1..]);
    }
  }

  /**
   However connects, accepts, writes, reads and closes interleave, the bytes a peer has written,
   those before it was accepted included, are the bytes this socket has read followed by the
   bytes queued for it, in order.
   */
  lemma StreamIntegrity(es: seq<Event>, a: Id)
    requires RolesKept(START, es)
    ensures
      var s, h := Run(START, es), RunHistory(START, NO_HISTORY, es);
      a in s.socks && s.socks[a].phase.Connected() ==>
        && s.socks[a].conn.Some?
        && var c := s.socks[a].conn.value;
           Lookup(h.sent, c.peer) == Lookup(h.got, a) + Flatten(c.packets)
  {
    RunIntact(START, NO_HISTORY, es);
    var s, h := Run(START, es), RunHistory(START, NO_HISTORY, es);
    if a in s.socks { assert SockOk(s, a) && Accounted(s, h, a); }
  }

  /**
   A live peer points back; a client in a queue is connecting to that queue's owner, unless it is
   gone, and is in no other queue.
   */
  lemma PeerAgreement(es: seq<Event>, a: Id, l: Id, c: Id)
    requires RolesKept(START, es)
    ensures
      var s := Run(START, es);
      && (a in s.socks && s.socks[a].phase.Connected() ==> ConnectedOk(s, a))
      && (l in s.socks && c in s.socks[l].awaiting ==> ClientOk(s, l, c) && multiset(s.socks[l].awaiting)[c] == 1)
  {
    RunIntact(START, NO_HISTORY, es);
    var s := Run(START, es);
    if a in s.socks { assert SockOk(s, a); }
    if l in s.socks { assert QueueOk(s, l); }
  }

  /**
   Reading into a non-empty buffer on a connected socket reports end of file exactly when the
   peer is gone and every byte it wrote has been read.
   */
  lemma HonestEof(es: seq<Event>, a: Id, n: nat, nb: bool)
    requires RolesKept(START, es) && n > 0
    ensures
      var s, h := Run(START, es), RunHistory(START, NO_HISTORY, es);
      a in s.socks && s.socks[a].phase.Connected() && s.socks[a].conn.Some? ==>
        var p := s.socks[a].conn.value.peer;
        var over := p !in s.socks && Lookup(h.sent, p) == Lookup(h.got, a);
        (Read(s, a, n, nb).1 == Ok(0) <==> over) && (RecvMsg(s, a, n, nb).1 == Ok(0) <==> over)
  {
    RunIntact(START, NO_HISTORY, es);
    var s, h := Run(START, es), RunHistory(START, NO_HISTORY, es);
    if a in s.socks && s.socks[a].phase.Connected() && s.socks[a].conn.Some? {
      assert SockOk(s, a) && Accounted(s, h, a);
      var ps, p := s.socks[a].conn.value.packets, s.socks[a].conn.value.peer;
      TakeNothing(ps, n);
      EmptySuffix(Lookup(h.sent, p), Lookup(h.got, a), Flatten(ps));
    }
  }

  lemma EmptySuffix(whole: seq<byte>, part: seq<byte>, rest: seq<byte>)
    requires whole == part + rest
    ensures whole == part <==> rest == []
  {
    assert rest == [] ==> part + rest == part;
    assert |whole| == |part| + |rest|;
  }

  // ---------------------------------------------------------------- without one role

  lemma RunCons(s: State, e: Event, es: seq<Event>)
    ensures Run(s, [e] + es) == Run(Next(s, e), es)
  {
    assert ([e] + es)[1..] == es;
  }

  /** Two listeners and a client. */
  const TWO_LISTENERS: State := State(
    map[
      0 := Socket(Listening, [], None, true, true),
      1 := Socket(Listening, [], None, true, true),
      2 := Socket(Unbound, [], None, true, false)
    ], 3)

  const SET_UP: seq<Event> := [OpenEvent(true), OpenEvent(true), OpenEvent(true), BindEvent(0), BindEvent(1)]

  /** The client turns from one listener to the other before it is accepted. */
  const TURNS: seq<Event> := [ConnectEvent(2, 0), ConnectEvent(2, 1), ListenEvent(0)]

  lemma SetUpRun()
    ensures Run(START, SET_UP) == TWO_LISTENERS
  {
    var s1 := Open(START, true);
    var s2 := Open(s1, true);
    var s3 := Open(s2, true);
    RunCons(START, OpenEvent(true), SET_UP[1..]);
    RunCons(s1, OpenEvent(true), SET_UP[2..]);
    RunCons(s2, OpenEvent(true), SET_UP[3..]);
    RunCons(s3, BindEvent(0), SET_UP[4..]);
    RunCons(Bind(s3, 0).0, BindEvent(1), []);
  }

  lemma {:induction false} RunJoin(s: State, es: seq<Event>, fs: seq<Event>)
    ensures Run(s, es + fs) == Run(Run(s, es), fs)
    decreases es
  {
    if es == [] {
      assert es + fs == fs;
    } else {
      assert (es + fs)[1..] == es[1..] + fs;
      RunJoin(Next(s, es[0]), es[1..], fs);
    }
  }

  /** Client `c` is accepted, yet its peer is listener `l`, which fails to accept it; connecting again succeeds. */
  ghost predicate LeftHanging(s: State, c: Id, l: Id) {
    && c in s.socks && l in s.socks && s.socks[c].phase.Accepted? && s.socks[l].phase.Listening?
    && s.socks[c].conn.Some? && s.socks[c].conn.value.peer == l
    && Listen(s, l).1 == Err(EINVAL)
    && Connect(s, c, l).1 == Ok(0)
  }

  lemma Turned()
    ensures LeftHanging(Run(TWO_LISTENERS, TURNS), 2, 1)
  {
    var s1 := Connect(TWO_LISTENERS, 2, 0).0;
    var s2 := Connect(s1, 2, 1).0;
    RunCons(TWO_LISTENERS, TURNS[0], TURNS[1..]);
    RunCons(s1, TURNS[1], TURNS[2..]);
    RunCons(s2, TURNS[2], []);
    assert s2.socks[0].awaiting == [2] && s2.socks[1].awaiting == [2];
  }

  /**
   In this run from the empty table the accept on the first listener leaves the client accepted
   while its peer is the second listener, which then cannot accept it; the client's next connect
   reports success.
   */
  lemma TurningClient()
    ensures LeftHanging(Run(START, SET_UP + TURNS), 2, 1)
  {
    RunJoin(START, SET_UP, TURNS);
    SetUpRun();
    Turned();
  }
}
