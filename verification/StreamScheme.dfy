/** The stream scheme as it is: handles updated in place, loops for accepting, copying and closing. */
module StreamScheme {
  import opened Prelude
  import opened Bytes
  import opened StreamModel
  import opened StreamQueue
  import opened StreamHistory

  /** What one attempt to accept a client came to. */
  datatype Attempt = Joined(id: Id) | ClientGone | Refused(errno: Errno)

  /** The payload loop of `recvmsg`: collects bytes until the caller's vectors are full. */
  method CollectPayload(packets: seq<Packet>, iovSize: nat) returns (payload: seq<byte>, left: seq<Packet>)
    ensures (payload, left) == Take(packets, iovSize)
    ensures Solid(packets) ==> |payload| == iovSize || left == []
  {
    payload, left := [], packets;
    ghost var goal := Take(packets, iovSize);
    ResumeStart(packets, iovSize);
    while |payload| < iovSize && left != []
      invariant |payload| <= iovSize
      invariant Resumes(goal, payload, left, iovSize - |payload|) && (Solid(packets) ==> Solid(left))
      decreases |left|, iovSize - |payload|
    {
      if Solid(packets) { NeverStuck(left, iovSize - |payload|); }
      var rem := Rest(left[0]);
      var copied := Min(|rem|, iovSize - |payload|);
      if copied == 0 { break; }
      ResumeStep(goal, payload, left, iovSize - |payload|);
      payload := payload + rem[..copied];
      left := Advance(left, copied);
    }
    ResumeEnd(goal, payload, left, iovSize - |payload|);
  }

  // ---------------------------------------------------------------- ids

  /** Handles are below the next id and no socket waits in its own queue. */
  ghost predicate Sane(s: State) {
    forall a | a in s.socks :: a < s.nextId && a !in s.socks[a].awaiting
  }

  lemma {:induction false} AcceptSane(s: State, l: Id)
    requires Sane(s) && l in s.socks
    ensures Sane(Accept(s, l).0)
    decreases |s.socks[l].awaiting|
  {
    var q := s.socks[l].awaiting;
    if q != [] {
      var c, s1 := q[0], Put(s, l, s.socks[l].(awaiting := q[1..]));
      assert Sane(s1);
      if c !in s1.socks {
        AcceptSane(s1, l);
      } else if AcceptOne(s1, l, c).1 == Some(EAGAIN) {
        AcceptSane(AcceptOne(s1, l, c).0, l);
      }
    }
  }

  lemma {:induction false} MarkClosedSane(s: State, ids: seq<Id>)
    requires Sane(s)
    ensures Sane(MarkClosed(s, ids))
    decreases ids
  {
    if ids != [] {
      MarkClosedSane(if ids[0] in s.socks then Put(s, ids[0], s.socks[ids[0]].(phase := Closed)) else s, ids[1..]);
    }
  }

  lemma NextSane(s: State, e: Event)
    requires Sane(s)
    ensures Sane(Next(s, e))
  {
    match e
    case ListenEvent(id) =>
      if id in s.socks { AcceptSane(s, id); AcceptSane(Put(s, id, s.socks[id].(phase := Listening)), id); }
    case CloseEvent(id) =>
      if id in s.socks { MarkClosedSane(s.(socks := s.socks - {id}), s.socks[id].awaiting); }
    case _ =>
  }

  // ---------------------------------------------------------------- the scheme

  class UdsStreamScheme {
    var handles: map<Id, Socket>
    var nextId: Id

    ghost function Model(): State
      reads this
    {
      State(handles, nextId)
    }

    ghost predicate Valid()
      reads this
    {
      Sane(Model())
    }

    constructor ()
      ensures Valid() && Model() == START
    {
      handles, nextId := map[], 0;
    }

    method HandleUnnamedSocket(nonblock: bool) returns (id: Id)
      requires Valid()
      modifies this
      ensures Valid()
      ensures id == old(nextId) && Model() == Open(old(Model()), nonblock)
    {
      NextSane(Model(), OpenEvent(nonblock));
      id := nextId;
      handles := handles[id := Fresh(nonblock)];
      nextId := nextId + 1;
    }

    method HandleBind(id: Id) returns (r: Outcome)
      requires Valid()
      modifies this
      ensures Valid()
      ensures (Model(), r) == Bind(old(Model()), id)
    {
      NextSane(Model(), BindEvent(id));
      if id !in handles { return Err(EBADF); }
      var socket := handles[id];
      if !socket.phase.Unbound? { return Err(EINVAL); }
      handles := handles[id := socket.(phase := Bound, token := true)];
      handles := handles[id := handles[id].(phase := Listening)];
      assert handles == old(handles)[id := socket.(phase := Listening, token := true)];
      r := Ok(0);
    }

    method ConnectUnchecked(listener: Id, client: Id)
      requires listener in handles && client in handles
      modifies this
      ensures Model() == StreamModel.ConnectUnchecked(old(Model()), listener, client)
    {
      handles := handles[listener := handles[listener].(awaiting := handles[listener].awaiting + [client])];
      handles := handles[client := handles[client].(phase := Connecting)];
      handles := handles[client := handles[client].(conn := Some(Connection(listener, [], false)))];
    }

    method HandleConnect(client: Id, listener: Id) returns (r: Outcome)
      requires Valid()
      modifies this
      ensures Valid()
      ensures (Model(), r) == Connect(old(Model()), client, listener)
    {
      NextSane(Model(), ConnectEvent(client, listener));
      if listener !in handles || !handles[listener].token { return Err(ECONNREFUSED); }
      if client !in handles { return Err(EBADF); }
      if client == listener { return Err(BorrowPanic); }
      var c := handles[client];
      match c.phase {
        case Connecting => if c.conn.Some? && c.conn.value.peer == listener { return WouldBlock(c.nonblock); }
        case Established => return Err(EISCONN);
        case Accepted =>
          handles := handles[client := c.(phase := Established)];
          return Ok(0);
        case _ =>
      }
      match handles[listener].phase {
        case Unbound => if !c.nonblock { return Err(EWOULDBLOCK); }
        case Bound => if !c.nonblock { return Err(EWOULDBLOCK); }
        case Listening =>
        case _ => return Err(ECONNREFUSED);
      }
      ConnectUnchecked(listener, client);
      r := WouldBlock(c.nonblock);
    }

    method HandleConnectSocketpair(base: Id) returns (r: Outcome)
      requires Valid()
      modifies this
      ensures Valid()
      ensures (Model(), r) == SocketPair(old(Model()), base)
    {
      NextSane(Model(), PairEvent(base));
      if base !in handles { return Err(EBADF); }
      if handles[base].phase.Closed? { return Err(EPIPE); }
      var id := HandleUnnamedSocket(handles[base].nonblock);
      ConnectUnchecked(base, id);
      r := Ok(id);
    }

    // -------------------------------------------------------------- accepting

    /** The client's half of an accept, and the bytes it had parked. */
    method EstablishClient(client: Id, listener: Id, newId: Id) returns (parked: seq<Packet>, err: Option<Errno>)
      requires client in handles
      modifies this`handles
      ensures
        var (c, moved, e) := Establish(old(handles)[client], listener, newId);
        handles == old(handles)[client := c] && parked == moved && err == e
    {
      var c := handles[client];
      parked := [];
      if !c.phase.Connecting? {
        assert handles[client := c] == handles;
        return parked, Some(EINVAL);
      }
      c := c.(phase := Accepted);
      handles := handles[client := c];
      if c.conn.None? || c.conn.value.peer != listener { return parked, Some(EAGAIN); }
      parked := c.conn.value.packets;
      handles := handles[client := c.(conn := Some(c.conn.value.(peer := newId, packets := [])))];
      err := None;
    }

    method AcceptConnection(listener: Id, client: Id) returns (r: Attempt)
      requires listener in handles
      modifies this
      ensures client !in old(handles) ==> r == ClientGone && Model() == old(Model())
      ensures client in old(handles) ==>
                var (s, err) := AcceptOne(old(Model()), listener, client);
                Model() == s && r == if err.None? then Joined(old(nextId)) else Refused(err.value)
    {
      if client !in handles { return ClientGone; }
      var l, id := handles[listener], nextId;
      var parked, err := EstablishClient(client, listener, id);
      if err.Some? { return Refused(err.value); }
      nextId := nextId + 1;
      handles := handles[id := Socket(Established, [], Some(Connection(client, parked, false)), l.nonblock, false)];
      r := Joined(id);
    }

    /** Takes clients off the queue; stops early, with None, at one that is gone. */
    method HandleAccept(id: Id) returns (r: Option<Outcome>)
      requires Valid() && id in handles
      modifies this
      ensures r.Some? ==> (Model(), r.value) == Accept(old(Model()), id)
      ensures r.None? ==>
                && Valid() && id in handles && Accept(Model(), id) == Accept(old(Model()), id)
                && handles[id].phase == old(handles)[id].phase
                && |handles[id].awaiting| < |old(handles)[id].awaiting|
    {
      var nonblock := handles[id].nonblock;
      while true
        invariant Valid() && id in handles && Accept(Model(), id) == Accept(old(Model()), id)
        invariant handles[id].nonblock == nonblock && handles[id].phase == old(handles)[id].phase
        invariant |handles[id].awaiting| <= |old(handles)[id].awaiting|
        decreases |handles[id].awaiting|
      {
        if handles[id].awaiting == [] { return Some(WouldBlock(nonblock)); }
        var client := handles[id].awaiting[0];
        handles := handles[id := handles[id].(awaiting := handles[id].awaiting[1..])];
        var attempt := AcceptConnection(id, client);
        match attempt {
          case Joined(newId) => return Some(Ok(newId));
          case ClientGone => return None;
          case Refused(errno) => if !errno.EAGAIN? { return Some(Err(errno)); }
        }
      }
    }

    /** Starts listening if need be, and goes on accepting past clients that are gone. */
    method HandleListen(id: Id) returns (r: Outcome)
      requires Valid()
      modifies this
      ensures Valid() && (Model(), r) == Listen(old(Model()), id)
    {
      NextSane(Model(), ListenEvent(id));
      while true
        invariant Valid() && Listen(Model(), id) == Listen(old(Model()), id)
        decreases id in handles && !handles[id].phase.Listening?, if id in handles then |handles[id].awaiting| else 0
      {
        if id !in handles { return Err(EBADF); }
        if handles[id].phase.Listening? {
          var accepted := HandleAccept(id);
          if accepted.Some? { return accepted.value; }
        } else {
          if !handles[id].phase.Unbound? && !handles[id].phase.Bound? { return Err(EINVAL); }
          handles := handles[id := handles[id].(phase := Listening)];
        }
      }
    }

    // -------------------------------------------------------------- data

    method GetConnectedPeer(id: Id) returns (r: Outcome)
      ensures r == PeerOf(Model(), id)
    {
      if id !in handles { return Err(EBADF); }
      if handles[id].conn.None? { return Err(EPROTO); }
      var peer := handles[id].conn.value.peer;
      if peer !in handles { return Err(EPIPE); }
      if handles[peer].phase.Closed? { return Err(ECONNREFUSED); }
      r := Ok(peer);
    }

    method PushPacket(id: Id, buf: seq<byte>)
      requires id in handles && handles[id].conn.Some?
      modifies this`handles
      ensures Model() == Deliver(old(Model()), id, buf)
    {
      var k := handles[id];
      if buf == [] {
        assert handles[id := k] == handles;
      } else {
        handles := handles[id := k.(conn := Some(k.conn.value.(packets := k.conn.value.packets + [Packet(buf, 0)])))];
      }
    }

    method HandleWrite(id: Id, buf: seq<byte>) returns (r: Outcome)
      requires Valid()
      modifies this`handles
      ensures Valid()
      ensures (Model(), r) == Write(old(Model()), id, buf)
    {
      NextSane(Model(), WriteEvent(id, buf));
      var peer := GetConnectedPeer(id);
      if peer.Err? { return peer; }
      var receiver := handles[peer.n];
      if receiver.phase.Listening? {
        PushPacket(id, buf);
      } else {
        var error := ConnectedError(receiver);
        if error.Some? { return Err(error.value); }
        PushPacket(peer.n, buf);
      }
      r := Ok(|buf|);
    }

    method HandleSendMsg(id: Id, payload: seq<byte>) returns (r: Outcome)
      requires Valid()
      modifies this`handles
      ensures Valid()
      ensures (Model(), r) == SendMsg(old(Model()), id, payload)
    {
      NextSane(Model(), SendMsgEvent(id, payload));
      var peer := GetConnectedPeer(id);
      if peer.Err? { return peer; }
      var error := ConnectedError(handles[peer.n]);
      if error.Some? { return Err(error.value); }
      PushPacket(peer.n, payload);
      r := Ok(|payload|);
    }

    /** Moves bytes from the front of the queue into the buffer. */
    method DrainInto(id: Id, buf: array<byte>) returns (total: nat)
      requires id in handles && handles[id].conn.Some?
      modifies this`handles, buf
      ensures
        var (s, data) := Consume(old(Model()), id, buf.Length);
        Model() == s && total == |data| <= buf.Length && buf[..] == Splice(old(buf[..]), 0, data)
    {
      var k := handles[id];
      var left;
      total, left := ReadInner(k.conn.value.packets, buf);
      handles := handles[id := k.(conn := Some(k.conn.value.(packets := left)))];
    }

    /** Fills the caller's buffer as far as the queue goes and leaves its rest alone. */
    method HandleRead(id: Id, buf: array<byte>, nonblock: bool) returns (r: Outcome)
      requires Valid()
      modifies this`handles, buf
      ensures Valid()
      ensures
        var (s, out, data) := Read(old(Model()), id, buf.Length, nonblock);
        && Model() == s && r == out
        && |data| <= buf.Length && buf[..] == Splice(old(buf[..]), 0, data)
    {
      NextSane(Model(), ReadEvent(id, buf.Length, nonblock));
      assert Splice(buf[..], 0, []) == buf[..];
      if id !in handles { return Err(EBADF); }
      var k := handles[id];
      if k.phase.Closed? { return Ok(0); }
      if k.phase.Listening? { return Err(EOPNOTSUPP); }
      var error := ConnectedError(k);
      if error.Some? { return Err(error.value); }
      var total := DrainInto(id, buf);
      if total > 0 { return Ok(total); }
      if k.conn.value.peerShutdown { return Ok(0); }
      r := WouldBlock(nonblock);
    }

    method HandleRecvMsg(id: Id, iovSize: nat, nonblock: bool) returns (r: Outcome, payload: seq<byte>)
      requires Valid()
      modifies this`handles
      ensures Valid()
      ensures (Model(), r, payload) == RecvMsg(old(Model()), id, iovSize, nonblock)
    {
      NextSane(Model(), RecvMsgEvent(id, iovSize, nonblock));
      payload := [];
      if id !in handles { return Err(EBADF), []; }
      var k := handles[id];
      match k.phase {
        case Established =>
        case Accepted =>
        case Closed => return Ok(0), [];
        case Listening => return Err(EOPNOTSUPP), [];
        case _ => return Err(ENOTCONN), [];
      }
      if k.conn.None? { return Err(EPROTO), []; }
      if k.conn.value.packets == [] {
        if k.conn.value.peerShutdown { return Ok(0), []; }
        return WouldBlock(k.nonblock || nonblock), [];
      }
      var left;
      payload, left := CollectPayload(k.conn.value.packets, iovSize);
      handles := handles[id := k.(conn := Some(k.conn.value.(packets := left)))];
      r := Ok(|payload|);
    }

    // -------------------------------------------------------------- closing

    /** Closes every client that was waiting for a listener. */
    method CloseWaiting(awaiting: seq<Id>)
      modifies this`handles
      ensures Model() == MarkClosed(old(Model()), awaiting)
    {
      for i := 0 to |awaiting|
        invariant MarkClosed(Model(), awaiting[i..]) == MarkClosed(old(Model()), awaiting)
      {
        assert awaiting[i..][1..] == awaiting[i + 1..];
        var client := awaiting[i];
        if client in handles { handles := handles[client := handles[client].(phase := Closed)]; }
      }
    }

    method OnClose(id: Id)
      requires Valid()
      modifies this`handles
      ensures Valid() && Model() == Close(old(Model()), id)
    {
      NextSane(Model(), CloseEvent(id));
      if id !in handles { return; }
      var k := handles[id];
      handles := handles - {id};
      if k.phase.Listening? {
        CloseWaiting(k.awaiting);
      } else if k.phase.Connected() && k.conn.Some? && k.conn.value.peer in handles {
        var peer := k.conn.value.peer;
        var remote := handles[peer];
        if remote.conn.Some? {
          handles := handles[peer := remote.(conn := Some(remote.conn.value.(peerShutdown := true)))];
        }
      }
    }
  }
}
