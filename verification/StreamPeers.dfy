/** Connected sockets agree on who their peer is, and queued clients wait in exactly one place. */
module StreamPeers {
  import opened Prelude
  import opened StreamModel
  import opened StreamQueue

  ghost predicate ListeningSide(p: Phase) { p.Unbound? || p.Bound? || p.Listening? }

  // ---------------------------------------------------------------- the invariant

  /** A socket that waits to be accepted is queued with its target, if that is still there. */
  ghost predicate ConnectingOk(s: State, a: Id)
    requires a in s.socks
  {
    var k := s.socks[a];
    && k.awaiting == []
    && k.conn.Some? && !k.conn.value.peerShutdown && Solid(k.conn.value.packets)
    && var p := k.conn.value.peer;
       && p < s.nextId
       && p != a
       && (p in s.socks ==> a in s.socks[p].awaiting)
  }

  /** A live peer points back; a vanished peer has been noticed, and only a vanished one. */
  ghost predicate ConnectedOk(s: State, a: Id)
    requires a in s.socks
  {
    var k := s.socks[a];
    && k.awaiting == []
    && k.conn.Some? && Solid(k.conn.value.packets)
    && var p := k.conn.value.peer;
       && p < s.nextId
       && p != a
       && (p in s.socks <==> !k.conn.value.peerShutdown)
       && (p in s.socks ==> s.socks[p].phase.Connected() && s.socks[p].conn.Some? && s.socks[p].conn.value.peer == a)
  }

  ghost predicate SockOk(s: State, a: Id)
    requires a in s.socks
  {
    var k := s.socks[a];
    && a < s.nextId
    && (k.token ==> k.phase.Listening?)
    && match k.phase
       case Connecting => ConnectingOk(s, a)
       case Accepted => ConnectedOk(s, a)
       case Established => ConnectedOk(s, a)
       case Closed => k.awaiting == [] && k.conn.Some? && k.conn.value.peer !in s.socks && k.conn.value.peer < s.nextId
       case _ => k.conn.None?
  }

  /** A queued client that is still there is connecting to this very socket. */
  ghost predicate ClientOk(s: State, l: Id, c: Id) {
    && c < s.nextId
    && c != l
    && (c in s.socks ==> s.socks[c].phase.Connecting? && s.socks[c].conn.Some? && s.socks[c].conn.value.peer == l)
    && (forall m | m in s.socks && m != l :: c !in s.socks[m].awaiting)
  }

  ghost predicate Once(q: seq<Id>) {
    forall c | c in q :: multiset(q)[c] == 1
  }

  ghost predicate QueueOk(s: State, l: Id)
    requires l in s.socks
  {
    && (s.socks[l].awaiting != [] ==> ListeningSide(s.socks[l].phase))
    && (forall c | c in s.socks[l].awaiting :: ClientOk(s, l, c))
    && Once(s.socks[l].awaiting)
  }

  ghost predicate PeersAgree(s: State) {
    && (forall a {:trigger SockOk(s, a)} | a in s.socks :: SockOk(s, a))
    && (forall l {:trigger QueueOk(s, l)} | l in s.socks :: QueueOk(s, l))
  }

  /** The socket's target or peer is still in the table. */
  ghost predicate AimsAtLive(s: State, a: Id)
    requires a in s.socks
  {
    s.socks[a].conn.Some? && s.socks[a].conn.value.peer in s.socks
  }

  // ---------------------------------------------------------------- the one-role hypothesis

  /** This connect puts the client into the listener's queue. */
  ghost predicate Queues(s: State, c: Id, l: Id) {
    && c in s.socks && l in s.socks && c != l && s.socks[l].token
    && !s.socks[c].phase.Connected()
    && !(s.socks[c].phase.Connecting? && s.socks[c].conn.Some? && s.socks[c].conn.value.peer == l)
    && (s.socks[l].phase.Listening? || (ListeningSide(s.socks[l].phase) && s.socks[c].nonblock))
  }

  /**
   A socket that joins a queue is not on the listening side itself and does not wait for another
   live target; the base of a socket pair is on the listening side.
   */
  ghost predicate OneRole(s: State, e: Event) {
    match e
    case ConnectEvent(c, l) =>
      Queues(s, c, l) ==>
        && !s.socks[c].token
        && s.socks[c].awaiting == []
        && (s.socks[c].phase.Connecting? ==> !AimsAtLive(s, c))
    case PairEvent(base) => base in s.socks ==> ListeningSide(s.socks[base].phase) || s.socks[base].phase.Closed?
    case _ => true
  }

  // ---------------------------------------------------------------- steps that leave the shape alone

  /** The same sockets in the same phases with the same queues and peers; packets stay solid. */
  ghost predicate SameShapeOf(s: State, t: State, a: Id)
    requires a in s.socks && a in t.socks
  {
    var k, m := s.socks[a], t.socks[a];
    && m.phase == k.phase && m.awaiting == k.awaiting && m.token == k.token
    && (m.conn.Some? <==> k.conn.Some?)
    && (m.conn.Some? ==>
          && m.conn.value.peer == k.conn.value.peer
          && m.conn.value.peerShutdown == k.conn.value.peerShutdown
          && (Solid(k.conn.value.packets) ==> Solid(m.conn.value.packets)))
  }

  ghost predicate SameShape(s: State, t: State) {
    && t.socks.Keys == s.socks.Keys
    && t.nextId == s.nextId
    && forall a {:trigger SameShapeOf(s, t, a)} | a in s.socks :: SameShapeOf(s, t, a)
  }

  lemma SameShapeKeeps(s: State, t: State)
    requires PeersAgree(s) && SameShape(s, t)
    ensures PeersAgree(t)
  {
    forall a | a in t.socks ensures SockOk(t, a) {
      assert SockOk(s, a) && SameShapeOf(s, t, a);
      if t.socks[a].conn.Some? && t.socks[a].conn.value.peer in t.socks { assert SameShapeOf(s, t, t.socks[a].conn.value.peer); }
    }
    forall l | l in t.socks ensures QueueOk(t, l) {
      assert QueueOk(s, l) && SameShapeOf(s, t, l);
      forall c | c in t.socks[l].awaiting ensures ClientOk(t, l, c) {
        assert ClientOk(s, l, c);
        if c in t.socks { assert SameShapeOf(s, t, c); }
        forall m | m in t.socks && m != l ensures c !in t.socks[m].awaiting { assert SameShapeOf(s, t, m); }
      }
    }
  }

  lemma DeliverShape(s: State, id: Id, buf: seq<byte>)
    requires id in s.socks && s.socks[id].conn.Some?
    ensures SameShape(s, Deliver(s, id, buf))
  {
    AppendExact(s.socks[id].conn.value, buf);
  }

  lemma ConsumeShape(s: State, id: Id, n: nat)
    requires id in s.socks && s.socks[id].conn.Some?
    ensures SameShape(s, Consume(s, id, n).0)
  {
    if Solid(s.socks[id].conn.value.packets) { TakeExact(s.socks[id].conn.value.packets, n); }
  }

  lemma DataShape(s: State, e: Event)
    requires e.WriteEvent? || e.SendMsgEvent? || e.ReadEvent? || e.RecvMsgEvent? || e.SetFlagsEvent?
    ensures SameShape(s, Next(s, e))
  {
    var t := Next(s, e);
    match e
    case WriteEvent(id, buf) =>
      if t != s {
        var p := PeerOf(s, id).n;
        if s.socks[p].phase.Listening? { DeliverShape(s, id, buf); } else { DeliverShape(s, p, buf); }
      }
    case SendMsgEvent(id, buf) => if t != s { DeliverShape(s, PeerOf(s, id).n, buf); }
    case ReadEvent(id, room, nb) => if t != s { ConsumeShape(s, id, room); }
    case RecvMsgEvent(id, room, nb) => if t != s { ConsumeShape(s, id, room); }
    case SetFlagsEvent(_, _) =>
  }

  // ---------------------------------------------------------------- opening, listening, connecting

  lemma OpenKeeps(s: State, nonblock: bool)
    requires PeersAgree(s)
    ensures PeersAgree(Open(s, nonblock)) && s.nextId !in s.socks
  {
    var t := Open(s, nonblock);
    assert s.nextId in s.socks ==> SockOk(s, s.nextId);
    forall a | a in t.socks ensures SockOk(t, a) { if a != s.nextId { assert SockOk(s, a); } }
    forall l | l in t.socks ensures QueueOk(t, l) {
      if l != s.nextId {
        assert QueueOk(s, l);
        forall c | c in t.socks[l].awaiting ensures ClientOk(t, l, c) { assert ClientOk(s, l, c); }
      }
    }
  }

  lemma StartListeningKeeps(s: State, id: Id, token: bool)
    requires PeersAgree(s) && id in s.socks && (s.socks[id].phase.Unbound? || s.socks[id].phase.Bound?)
    ensures PeersAgree(Put(s, id, s.socks[id].(phase := Listening, token := token)))
  {
    var t := Put(s, id, s.socks[id].(phase := Listening, token := token));
    assert SockOk(s, id);
    forall a | a in t.socks ensures SockOk(t, a) { assert SockOk(s, a); }
    forall l | l in t.socks ensures QueueOk(t, l) {
      assert QueueOk(s, l);
      forall c | c in t.socks[l].awaiting ensures ClientOk(t, l, c) { assert ClientOk(s, l, c); }
    }
  }

  /** A client that is in nobody's queue and nobody's peer may join a listener's queue. */
  ghost predicate MayConnect(s: State, l: Id, c: Id) {
    && l in s.socks && c in s.socks && c != l
    && ListeningSide(s.socks[l].phase) && !s.socks[c].token
    && s.socks[c].awaiting == [] && !s.socks[c].phase.Connected()
    && (s.socks[c].phase.Connecting? ==> !AimsAtLive(s, c))
  }

  lemma ConnectUncheckedSocks(s: State, l: Id, c: Id, a: Id)
    requires PeersAgree(s) && MayConnect(s, l, c) && a in s.socks
    ensures SockOk(ConnectUnchecked(s, l, c), a)
  {
    assert SockOk(s, a) && SockOk(s, c) && SockOk(s, l);
  }

  lemma ConnectUncheckedKeeps(s: State, l: Id, c: Id)
    requires PeersAgree(s) && MayConnect(s, l, c)
    ensures PeersAgree(ConnectUnchecked(s, l, c))
  {
    var t := ConnectUnchecked(s, l, c);
    ClientNotQueued(s, c);
    forall a | a in t.socks ensures SockOk(t, a) { ConnectUncheckedSocks(s, l, c, a); }
    assert c < s.nextId by { assert SockOk(s, c); }
    forall m | m in t.socks ensures QueueOk(t, m) {
      assert QueueOk(s, m);
      forall d | d in t.socks[m].awaiting ensures ClientOk(t, m, d) {
        if d != c { assert ClientOk(s, m, d); }
      }
      assert Once(t.socks[m].awaiting);
    }
  }

  ghost predicate Unqueued(s: State, c: Id) {
    forall m | m in s.socks :: c !in s.socks[m].awaiting
  }

  lemma ClientNotQueued(s: State, c: Id)
    requires PeersAgree(s) && c in s.socks
    requires !s.socks[c].phase.Connecting? || !AimsAtLive(s, c)
    ensures Unqueued(s, c)
  {
    forall m | m in s.socks ensures c !in s.socks[m].awaiting {
      assert QueueOk(s, m);
      assert c in s.socks[m].awaiting ==> ClientOk(s, m, c);
    }
  }

  lemma ConnectKeeps(s: State, c: Id, l: Id)
    requires PeersAgree(s) && OneRole(s, ConnectEvent(c, l))
    ensures PeersAgree(Connect(s, c, l).0)
  {
    var t := Connect(s, c, l).0;
    if t != s {
      assert SockOk(s, c) && SockOk(s, l);
      if s.socks[c].phase.Accepted? {
        assert SameShapeBut(s, t, c);
        EstablishedKeeps(s, c);
      } else {
        ConnectUncheckedKeeps(s, l, c);
      }
    }
  }

  ghost predicate SameShapeBut(s: State, t: State, c: Id) {
    c in s.socks && t == Put(s, c, s.socks[c].(phase := Established))
  }

  /** The client learning that it was accepted changes nothing for anybody else. */
  lemma EstablishedKeeps(s: State, c: Id)
    requires PeersAgree(s) && c in s.socks && s.socks[c].phase.Accepted?
    ensures PeersAgree(Put(s, c, s.socks[c].(phase := Established)))
  {
    var t := Put(s, c, s.socks[c].(phase := Established));
    forall a | a in t.socks ensures SockOk(t, a) { assert SockOk(s, a) && SockOk(s, c); }
    forall m | m in t.socks ensures QueueOk(t, m) {
      assert QueueOk(s, m);
      forall d | d in t.socks[m].awaiting ensures ClientOk(t, m, d) { assert ClientOk(s, m, d); }
    }
  }

  lemma PairKeeps(s: State, base: Id)
    requires PeersAgree(s) && OneRole(s, PairEvent(base))
    ensures PeersAgree(SocketPair(s, base).0)
  {
    if base in s.socks && !s.socks[base].phase.Closed? {
      OpenKeeps(s, s.socks[base].nonblock);
      assert SockOk(s, base);
      ConnectUncheckedKeeps(Open(s, s.socks[base].nonblock), base, s.nextId);
    }
  }

  // ---------------------------------------------------------------- accepting

  lemma OncePop(q: seq<Id>)
    requires q != [] && Once(q)
    ensures q[0] !in q[1..] && Once(q[1..])
  {
    assert q == [q[0]] + q[1..];
    assert multiset(q) == multiset{q[0]} + multiset(q[1..]);
    forall c | c in q[1..] ensures multiset(q[1..])[c] == 1 && c != q[0] {
      assert c in q && multiset(q[1..])[c] >= 1;
    }
  }

  /** Taking the head of a queue off; the client taken off is then nowhere queued. */
  lemma PopKeepsQueues(s: State, l: Id)
    requires PeersAgree(s) && l in s.socks && s.socks[l].awaiting != []
    ensures
      var c, t := s.socks[l].awaiting[0], Put(s, l, s.socks[l].(awaiting := s.socks[l].awaiting[1..]));
      && Unqueued(t, c)
      && (forall m | m in t.socks :: QueueOk(t, m))
      && (forall a | a in t.socks && a != c :: SockOk(t, a))
  {
    var q := s.socks[l].awaiting;
    var c, t := q[0], Put(s, l, s.socks[l].(awaiting := q[1..]));
    assert QueueOk(s, l) && ClientOk(s, l, c);
    OncePop(q);
    forall m | m in t.socks ensures QueueOk(t, m) {
      assert QueueOk(s, m);
      forall d | d in t.socks[m].awaiting ensures ClientOk(t, m, d) { assert ClientOk(s, m, d); }
    }
    forall a | a in t.socks && a != c ensures SockOk(t, a) { assert SockOk(s, a); }
  }

  /** A popped client that is still there gets a new socket as its peer, and that socket it. */
  lemma AcceptOneKeeps(s: State, l: Id, c: Id)
    requires l in s.socks && c in s.socks && c != l && Unqueued(s, c)
    requires forall m | m in s.socks :: QueueOk(s, m)
    requires forall a | a in s.socks && a != c :: SockOk(s, a)
    requires c < s.nextId && s.socks[c].phase.Connecting? && !s.socks[c].token && s.socks[c].awaiting == []
    requires s.socks[c].conn.Some? && s.socks[c].conn.value.peer == l && !s.socks[c].conn.value.peerShutdown
    requires Solid(s.socks[c].conn.value.packets)
    ensures AcceptOne(s, l, c).1.None? && PeersAgree(AcceptOne(s, l, c).0)
  {
    var t := AcceptOne(s, l, c).0;
    assert SockOk(s, l);
    assert s.nextId !in s.socks by { assert s.nextId in s.socks ==> SockOk(s, s.nextId); }
    forall a | a in t.socks ensures SockOk(t, a) { if a != c && a != s.nextId { assert SockOk(s, a); } }
    forall m | m in t.socks ensures QueueOk(t, m) {
      if m != s.nextId {
        assert QueueOk(s, m);
        forall d | d in t.socks[m].awaiting ensures ClientOk(t, m, d) { assert ClientOk(s, m, d); }
      }
    }
  }

  /** Accepting passes over clients that are gone, and never trips over one that is there. */
  lemma {:induction false} AcceptKeeps(s: State, l: Id)
    requires PeersAgree(s) && l in s.socks
    ensures PeersAgree(Accept(s, l).0)
    ensures Accept(s, l).1.Err? ==> Accept(s, l).1 == WouldBlock(s.socks[l].nonblock)
    decreases |s.socks[l].awaiting|
  {
    var q := s.socks[l].awaiting;
    if q != [] {
      var c, s1 := q[0], Put(s, l, s.socks[l].(awaiting := q[1..]));
      assert QueueOk(s, l) && ClientOk(s, l, c);
      PopKeepsQueues(s, l);
      if c !in s1.socks {
        forall a | a in s1.socks ensures SockOk(s1, a) { assert a != c; }
        AcceptKeeps(s1, l);
      } else {
        assert SockOk(s, c) && SockOk(s, l);
        AcceptOneKeeps(s1, l, c);
      }
    }
  }

  lemma ListenKeeps(s: State, id: Id)
    requires PeersAgree(s)
    ensures PeersAgree(Listen(s, id).0)
  {
    if id in s.socks {
      if s.socks[id].phase.Listening? {
        AcceptKeeps(s, id);
      } else if s.socks[id].phase.Unbound? || s.socks[id].phase.Bound? {
        var s1 := Put(s, id, s.socks[id].(phase := Listening));
        assert SockOk(s, id);
        assert s1 == Put(s, id, s.socks[id].(phase := Listening, token := s.socks[id].token));
        StartListeningKeeps(s, id, s.socks[id].token);
        AcceptKeeps(s1, id);
      }
    }
  }

  // ---------------------------------------------------------------- closing

  lemma {:induction false} MarkClosedEffect(s: State, ids: seq<Id>, a: Id)
    ensures MarkClosed(s, ids).socks.Keys == s.socks.Keys && MarkClosed(s, ids).nextId == s.nextId
    ensures a in s.socks ==>
              MarkClosed(s, ids).socks[a] == if a in ids then s.socks[a].(phase := Closed) else s.socks[a]
    decreases ids
  {
    if ids != [] {
      var s1 := if ids[0] in s.socks then Put(s, ids[0], s.socks[ids[0]].(phase := Closed)) else s;
      MarkClosedEffect(s1, ids[1..], a);
      assert a in ids <==> a == ids[0] || a in ids[1..];
    }
  }

  /** A closing listener closes everybody who waits for it. */
  lemma CloseListenerKeeps(s: State, id: Id)
    requires PeersAgree(s) && id in s.socks && s.socks[id].phase.Listening?
    ensures PeersAgree(Close(s, id))
  {
    var q, t := s.socks[id].awaiting, Close(s, id);
    var s1 := s.(socks := s.socks - {id});
    MarkClosedEffect(s1, q, id);
    assert SockOk(s, id) && QueueOk(s, id);
    forall a | a in t.socks ensures SockOk(t, a) {
      assert SockOk(s, a);
      MarkClosedEffect(s1, q, a);
      if a in q {
        assert ClientOk(s, id, a);
      } else if s.socks[a].conn.Some? && s.socks[a].conn.value.peer in t.socks {
        MarkClosedEffect(s1, q, s.socks[a].conn.value.peer);
        assert s.socks[a].conn.value.peer in q ==> ClientOk(s, id, s.socks[a].conn.value.peer);
        assert SockOk(s, s.socks[a].conn.value.peer);
      }
    }
    forall m | m in t.socks ensures QueueOk(t, m) {
      assert QueueOk(s, m) && SockOk(s, m);
      MarkClosedEffect(s1, q, m);
      assert m in q ==> ClientOk(s, id, m);
      forall d | d in t.socks[m].awaiting ensures ClientOk(t, m, d) {
        assert ClientOk(s, m, d);
        MarkClosedEffect(s1, q, d);
        assert d !in q by { assert d in q ==> ClientOk(s, id, d); }
        forall n | n in t.socks && n != m ensures d !in t.socks[n].awaiting { MarkClosedEffect(s1, q, n); }
      }
    }
  }

  lemma CloseOtherKeeps(s: State, id: Id)
    requires PeersAgree(s) && id in s.socks && !s.socks[id].phase.Listening?
    ensures PeersAgree(Close(s, id))
  {
    var t := Close(s, id);
    assert SockOk(s, id);
    forall a | a in t.socks ensures SockOk(t, a) { assert SockOk(s, a); }
    forall m | m in t.socks ensures QueueOk(t, m) {
      assert QueueOk(s, m);
      forall d | d in t.socks[m].awaiting ensures ClientOk(t, m, d) { assert ClientOk(s, m, d); }
    }
  }

  // ---------------------------------------------------------------- every step, every run

  lemma NextKeeps(s: State, e: Event)
    requires PeersAgree(s) && OneRole(s, e)
    ensures PeersAgree(Next(s, e))
  {
    match e
    case OpenEvent(nonblock) => OpenKeeps(s, nonblock);
    case BindEvent(id) => if id in s.socks && s.socks[id].phase.Unbound? { StartListeningKeeps(s, id, true); }
    case ConnectEvent(client, listener) => ConnectKeeps(s, client, listener);
    case PairEvent(base) => PairKeeps(s, base);
    case ListenEvent(id) => ListenKeeps(s, id);
    case CloseEvent(id) =>
      if id in s.socks {
        if s.socks[id].phase.Listening? { CloseListenerKeeps(s, id); } else { CloseOtherKeeps(s, id); }
      }
    case _ =>
      DataShape(s, e);
      SameShapeKeeps(s, Next(s, e));
  }

  lemma ConnectBreaks(s: State, c: Id, l: Id)
    requires PeersAgree(s) && !OneRole(s, ConnectEvent(c, l))
    ensures !PeersAgree(Connect(s, c, l).0)
  {
    var t := Connect(s, c, l).0;
    assert t == ConnectUnchecked(s, l, c);
    assert SockOk(s, c) && SockOk(s, l);
    if s.socks[c].phase.Connecting? && AimsAtLive(s, c) {
      var p := s.socks[c].conn.value.peer;
      assert c in t.socks[p].awaiting && !ClientOk(t, p, c);
      assert !QueueOk(t, p);
    } else {
      assert !SockOk(t, c);
    }
  }

  lemma PairBreaks(s: State, base: Id)
    requires PeersAgree(s) && !OneRole(s, PairEvent(base))
    ensures !PeersAgree(SocketPair(s, base).0)
  {
    var t := SocketPair(s, base).0;
    assert s.nextId in t.socks[base].awaiting;
    assert !QueueOk(t, base);
  }

  /** The one-role hypothesis is exact: a step keeps the agreement if and only if it respects it. */
  lemma OneRoleIsExact(s: State, e: Event)
    requires PeersAgree(s)
    ensures PeersAgree(Next(s, e)) <==> OneRole(s, e)
  {
    if OneRole(s, e) {
      NextKeeps(s, e);
    } else if e.ConnectEvent? {
      ConnectBreaks(s, e.client, e.listener);
    } else {
      PairBreaks(s, e.base);
    }
  }

  /**
   Accepting marks the client accepted before it looks at whom the client waits for, so the
   client comes out connected if and only if it waits for this listener.
   */
  lemma AcceptedIffWaitingHere(s: State, l: Id, c: Id)
    requires PeersAgree(s) && l in s.socks && c in s.socks && s.socks[c].phase.Connecting? && s.socks[c].conn.Some?
    ensures AcceptOne(s, l, c).0.socks[c].phase.Accepted?
    ensures SockOk(AcceptOne(s, l, c).0, c) <==> s.socks[c].conn.value.peer == l
  {
    var t, p := AcceptOne(s, l, c).0, s.socks[c].conn.value.peer;
    assert SockOk(s, c) && (s.nextId in s.socks ==> SockOk(s, s.nextId));
    if p in s.socks { assert QueueOk(s, p) && SockOk(s, p); }
  }
}
