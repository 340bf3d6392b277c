/** In every run, whatever roles the sockets play, no queued packet is empty and reads are exact. */
module StreamReads {
  import opened Prelude
  import opened StreamModel
  import opened StreamQueue
  import opened StreamHistory

  ghost predicate SolidSock(k: Socket) { k.conn.Some? ==> Solid(k.conn.value.packets) }

  ghost predicate AllSolid(s: State) {
    forall a {:trigger SolidSock(s.socks[a])} | a in s.socks :: SolidSock(s.socks[a])
  }

  lemma PutSolid(s: State, id: Id, k: Socket)
    requires AllSolid(s) && SolidSock(k)
    ensures AllSolid(Put(s, id, k))
  {
    forall a | a in Put(s, id, k).socks ensures SolidSock(Put(s, id, k).socks[a]) {
      if a != id { assert SolidSock(s.socks[a]); }
    }
  }

  lemma ConnectUncheckedSolid(s: State, l: Id, c: Id)
    requires AllSolid(s) && l in s.socks && c in s.socks
    ensures AllSolid(ConnectUnchecked(s, l, c))
  {
    assert SolidSock(s.socks[l]);
    var s1 := Put(s, l, s.socks[l].(awaiting := s.socks[l].awaiting + [c]));
    PutSolid(s, l, s1.socks[l]);
    PutSolid(s1, c, s1.socks[c].(phase := Connecting, conn := Some(Connection(l, [], false))));
  }

  lemma AcceptOneSolid(s: State, l: Id, c: Id)
    requires AllSolid(s) && l in s.socks && c in s.socks
    ensures AllSolid(AcceptOne(s, l, c).0)
  {
    assert SolidSock(s.socks[c]);
    var (k, parked, err) := Establish(s.socks[c], l, s.nextId);
    PutSolid(s, c, k);
    if err.None? {
      PutSolid(Put(s, c, k), s.nextId, Socket(Established, [], Some(Connection(c, parked, false)), s.socks[l].nonblock, false));
    }
  }

  lemma {:induction false} AcceptSolid(s: State, l: Id)
    requires AllSolid(s) && l in s.socks
    ensures AllSolid(Accept(s, l).0)
    decreases |s.socks[l].awaiting|
  {
    var q := s.socks[l].awaiting;
    if q != [] {
      assert SolidSock(s.socks[l]);
      var c, s1 := q[0], Put(s, l, s.socks[l].(awaiting := q[1..]));
      PutSolid(s, l, s1.socks[l]);
      if c !in s1.socks {
        AcceptSolid(s1, l);
      } else {
        AcceptOneSolid(s1, l, c);
        if AcceptOne(s1, l, c).1 == Some(EAGAIN) { AcceptSolid(AcceptOne(s1, l, c).0, l); }
      }
    }
  }

  lemma {:induction false} MarkClosedSolid(s: State, ids: seq<Id>)
    requires AllSolid(s)
    ensures AllSolid(MarkClosed(s, ids))
    decreases ids
  {
    if ids != [] {
      if ids[0] in s.socks {
        assert SolidSock(s.socks[ids[0]]);
        PutSolid(s, ids[0], s.socks[ids[0]].(phase := Closed));
      }
      MarkClosedSolid(if ids[0] in s.socks then Put(s, ids[0], s.socks[ids[0]].(phase := Closed)) else s, ids[1..]);
    }
  }

  lemma DeliverSolid(s: State, id: Id, buf: seq<byte>)
    requires AllSolid(s) && id in s.socks && s.socks[id].conn.Some?
    ensures AllSolid(Deliver(s, id, buf))
  {
    assert SolidSock(s.socks[id]);
    AppendExact(s.socks[id].conn.value, buf);
    PutSolid(s, id, Deliver(s, id, buf).socks[id]);
  }

  lemma ConsumeSolid(s: State, id: Id, n: nat)
    requires AllSolid(s) && id in s.socks && s.socks[id].conn.Some?
    ensures AllSolid(Consume(s, id, n).0)
  {
    assert SolidSock(s.socks[id]);
    TakeExact(s.socks[id].conn.value.packets, n);
    PutSolid(s, id, Consume(s, id, n).0.socks[id]);
  }

  lemma CloseSolid(s: State, id: Id)
    requires AllSolid(s) && id in s.socks
    ensures AllSolid(Close(s, id))
  {
    var k, s1 := s.socks[id], s.(socks := s.socks - {id});
    forall a | a in s1.socks ensures SolidSock(s1.socks[a]) { assert SolidSock(s.socks[a]); }
    MarkClosedSolid(s1, k.awaiting);
    if ShutPeer(s1, k) != s1 {
      var p := k.conn.value.peer;
      assert SolidSock(s1.socks[p]);
      PutSolid(s1, p, ShutPeer(s1, k).socks[p]);
    }
  }

  lemma DataSolid(s: State, e: Event)
    requires AllSolid(s) && (e.WriteEvent? || e.SendMsgEvent? || e.ReadEvent? || e.RecvMsgEvent?)
    ensures AllSolid(Next(s, e))
  {
    if Next(s, e) != s {
      match e
      case WriteEvent(id, buf) =>
        if s.socks[PeerOf(s, id).n].phase.Listening? { DeliverSolid(s, id, buf); } else { DeliverSolid(s, PeerOf(s, id).n, buf); }
      case SendMsgEvent(id, buf) => DeliverSolid(s, PeerOf(s, id).n, buf);
      case ReadEvent(id, room, nb) => ConsumeSolid(s, id, room);
      case RecvMsgEvent(id, room, nb) => ConsumeSolid(s, id, room);
    }
  }

  lemma NextSolid(s: State, e: Event)
    requires AllSolid(s)
    ensures AllSolid(Next(s, e))
  {
    if Next(s, e) != s {
      match e
      case OpenEvent(nonblock) => PutSolid(s, s.nextId, Fresh(nonblock));
      case BindEvent(id) =>
        assert SolidSock(s.socks[id]);
        PutSolid(s, id, s.socks[id].(phase := Listening, token := true));
      case ConnectEvent(c, l) =>
        assert SolidSock(s.socks[c]);
        if s.socks[c].phase.Accepted? { PutSolid(s, c, s.socks[c].(phase := Established)); } else { ConnectUncheckedSolid(s, l, c); }
      case PairEvent(base) =>
        PutSolid(s, s.nextId, Fresh(s.socks[base].nonblock));
        ConnectUncheckedSolid(Open(s, s.socks[base].nonblock), base, s.nextId);
      case ListenEvent(id) =>
        assert SolidSock(s.socks[id]);
        PutSolid(s, id, s.socks[id].(phase := Listening));
        if s.socks[id].phase.Listening? { AcceptSolid(s, id); } else { AcceptSolid(Put(s, id, s.socks[id].(phase := Listening)), id); }
      case CloseEvent(id) => CloseSolid(s, id);
      case SetFlagsEvent(id, nonblock) =>
        assert SolidSock(s.socks[id]);
        PutSolid(s, id, s.socks[id].(nonblock := nonblock));
      case _ => DataSolid(s, e);
    }
  }

  lemma {:induction false} RunSolid(s: State, es: seq<Event>)
    requires AllSolid(s)
    ensures AllSolid(Run(s, es))
    decreases es
  {
    if es != [] {
      NextSolid(s, es[0]);
      RunSolid(Next(s, es[0]), es[1..]);
    }
  }

  function Queued(s: State, a: Id): seq<byte> {
    if a in s.socks && s.socks[a].conn.Some? then Flatten(s.socks[a].conn.value.packets) else []
  }

  /**
   In every run, a read or a receive on a connected socket delivers exactly the first
   min(room, queued) bytes and leaves exactly the others.
   */
  lemma ReadsAreExact(es: seq<Event>, a: Id, n: nat, nb: bool)
    ensures
      var s := Run(START, es);
      a in s.socks && s.socks[a].phase.Connected() && s.socks[a].conn.Some? ==>
        var all, k := Queued(s, a), Min(n, |Queued(s, a)|);
        && Solid(s.socks[a].conn.value.packets)
        && Read(s, a, n, nb).2 == all[..k] && Queued(Read(s, a, n, nb).0, a) == all[k..]
        && RecvMsg(s, a, n, nb).2 == all[..k] && Queued(RecvMsg(s, a, n, nb).0, a) == all[k..]
  {
    RunSolid(START, es);
    var s := Run(START, es);
    if a in s.socks && s.socks[a].conn.Some? {
      assert SolidSock(s.socks[a]);
      TakeExact(s.socks[a].conn.value.packets, n);
    }
  }
}
