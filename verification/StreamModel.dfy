/**
 Unix stream sockets: connecting, accepting, the byte queues and closing, as total functions on
 the table of sockets.  A socket's id is also its handle; ids are never reused.
 */
module StreamModel {
  import opened Prelude

  type Id = nat

  datatype Errno =
    | EAGAIN | EBADF | ECONNREFUSED | EINVAL | EISCONN | ENOTCONN | EOPNOTSUPP | EPIPE | EPROTO | EWOULDBLOCK
    | BorrowPanic

  datatype Phase = Unbound | Bound | Listening | Connecting | Accepted | Established | Closed {
    predicate Connected() { Accepted? || Established? }
  }

  datatype RawPacket = Packet(payload: seq<byte>, readOffset: nat)
  type Packet = p: RawPacket | p.readOffset <= |p.payload| witness Packet([], 0)

  datatype Connection = Connection(peer: Id, packets: seq<Packet>, peerShutdown: bool)

  /** `token` tells whether clients can name the socket in connect. */
  datatype Socket = Socket(phase: Phase, awaiting: seq<Id>, conn: Option<Connection>, nonblock: bool, token: bool)

  datatype State = State(socks: map<Id, Socket>, nextId: Id)

  datatype Outcome = Ok(n: nat) | Err(errno: Errno)

  function Put(s: State, id: Id, k: Socket): State { s.(socks := s.socks[id := k]) }

  function WouldBlock(nonblock: bool): Outcome { Err(if nonblock then EAGAIN else EWOULDBLOCK) }

  // ---------------------------------------------------------------- byte queues

  /** What is left to read of a packet. */
  function Rest(p: Packet): seq<byte> { p.payload[p.readOffset..] }

  function Flatten(ps: seq<Packet>): seq<byte> {
    if ps == [] then [] else Rest(ps[0]) + Flatten(ps[1..])
  }

  function Append(c: Connection, buf: seq<byte>): Connection {
    if buf == [] then c else c.(packets := c.packets + [Packet(buf, 0)])
  }

  // ---------------------------------------------------------------- creation and connecting

  function Fresh(nonblock: bool): Socket { Socket(Unbound, [], None, nonblock, false) }

  function Open(s: State, nonblock: bool): State {
    s.(socks := s.socks[s.nextId := Fresh(nonblock)], nextId := s.nextId + 1)
  }

  /** Binding issues the token and starts listening at once. */
  function Bind(s: State, id: Id): (State, Outcome) {
    if id !in s.socks then (s, Err(EBADF))
    else if !s.socks[id].phase.Unbound? then (s, Err(EINVAL))
    else (Put(s, id, s.socks[id].(phase := Listening, token := true)), Ok(0))
  }

  /** Queues the client with the listener and points the client at it. */
  function ConnectUnchecked(s: State, listener: Id, client: Id): State
    requires listener in s.socks && client in s.socks
  {
    var l := s.socks[listener];
    var s1 := Put(s, listener, l.(awaiting := l.awaiting + [client]));
    Put(s1, client, s1.socks[client].(phase := Connecting, conn := Some(Connection(listener, [], false))))
  }

  function Connect(s: State, client: Id, listener: Id): (State, Outcome) {
    if listener !in s.socks || !s.socks[listener].token then (s, Err(ECONNREFUSED))
    else if client !in s.socks then (s, Err(EBADF))
    else if client == listener then (s, Err(BorrowPanic))
    else
      var c, l := s.socks[client], s.socks[listener];
      if c.phase.Connecting? && c.conn.Some? && c.conn.value.peer == listener then (s, WouldBlock(c.nonblock))
      else if c.phase.Established? then (s, Err(EISCONN))
      else if c.phase.Accepted? then (Put(s, client, c.(phase := Established)), Ok(0))
      else if (l.phase.Unbound? || l.phase.Bound?) && !c.nonblock then (s, Err(EWOULDBLOCK))
      else if l.phase.Unbound? || l.phase.Bound? || l.phase.Listening? then
        (ConnectUnchecked(s, listener, client), WouldBlock(c.nonblock))
      else (s, Err(ECONNREFUSED))
  }

  /** A new socket that connects to `base`; it is created connected halfway. */
  function SocketPair(s: State, base: Id): (State, Outcome) {
    if base !in s.socks then (s, Err(EBADF))
    else if s.socks[base].phase.Closed? then (s, Err(EPIPE))
    else
      var s1 := Open(s, s.socks[base].nonblock);
      (ConnectUnchecked(s1, base, s.nextId), Ok(s.nextId))
  }

  // ---------------------------------------------------------------- accepting

  /** The client's half of an accept; it is marked accepted before its target is checked. */
  function Establish(c: Socket, listener: Id, newId: Id): (Socket, seq<Packet>, Option<Errno>) {
    if !c.phase.Connecting? then (c, [], Some(EINVAL))
    else
      var c1 := c.(phase := Accepted);
      if c1.conn.None? || c1.conn.value.peer != listener then (c1, [], Some(EAGAIN))
      else (c1.(conn := Some(c1.conn.value.(peer := newId, packets := []))), c1.conn.value.packets, None)
  }

  function AcceptOne(s: State, listener: Id, client: Id): (State, Option<Errno>)
    requires listener in s.socks && client in s.socks
  {
    var (c, parked, err) := Establish(s.socks[client], listener, s.nextId);
    var s1 := Put(s, client, c);
    if err.Some? then (s1, err)
    else
      var l := s.socks[listener];
      var accepted := Socket(Established, [], Some(Connection(client, parked, false)), l.nonblock, false);
      (s1.(socks := s1.socks[s.nextId := accepted], nextId := s.nextId + 1), None)
  }

  /** Takes waiting clients off the queue until one can be accepted. */
  function Accept(s: State, listener: Id): (State, Outcome)
    requires listener in s.socks
    decreases |s.socks[listener].awaiting|
  {
    var l := s.socks[listener];
    if l.awaiting == [] then (s, WouldBlock(l.nonblock))
    else
      var client := l.awaiting[0];
      var s1 := Put(s, listener, l.(awaiting := l.awaiting[1..]));
      if client !in s1.socks then Accept(s1, listener)
      else
        var (s2, err) := AcceptOne(s1, listener, client);
        if err.None? then (s2, Ok(s1.nextId))
        else if err.value.EAGAIN? then Accept(s2, listener)
        else (s2, Err(err.value))
  }

  /** `dup("listen")`: starts listening if need be, then accepts. */
  function Listen(s: State, id: Id): (State, Outcome) {
    if id !in s.socks then (s, Err(EBADF))
    else if s.socks[id].phase.Listening? then Accept(s, id)
    else if s.socks[id].phase.Unbound? || s.socks[id].phase.Bound? then
      Accept(Put(s, id, s.socks[id].(phase := Listening)), id)
    else (s, Err(EINVAL))
  }

  // ---------------------------------------------------------------- data

  /** The live socket at the other end, or why there is none. */
  function PeerOf(s: State, id: Id): Outcome {
    if id !in s.socks then Err(EBADF)
    else if s.socks[id].conn.None? then Err(EPROTO)
    else
      var p := s.socks[id].conn.value.peer;
      if p !in s.socks then Err(EPIPE)
      else if s.socks[p].phase.Closed? then Err(ECONNREFUSED)
      else Ok(p)
  }

  /** `require_connected_connection`. */
  function ConnectedError(k: Socket): Option<Errno> {
    match k.phase
    case Established => if k.conn.None? then Some(EPROTO) else None
    case Accepted => if k.conn.None? then Some(EPROTO) else None
    case Connecting => Some(if k.nonblock then EAGAIN else EWOULDBLOCK)
    case Closed => Some(EPIPE)
    case _ => Some(ENOTCONN)
  }

  function Deliver(s: State, id: Id, buf: seq<byte>): State
    requires id in s.socks && s.socks[id].conn.Some?
  {
    Put(s, id, s.socks[id].(conn := Some(Append(s.socks[id].conn.value, buf))))
  }

  /** Data for a listener that has not accepted yet is parked with its sender. */
  function Write(s: State, sender: Id, buf: seq<byte>): (State, Outcome) {
    var peer := PeerOf(s, sender);
    if peer.Err? then (s, peer)
    else
      var receiver := s.socks[peer.n];
      if receiver.phase.Listening? then (Deliver(s, sender, buf), Ok(|buf|))
      else if ConnectedError(receiver).Some? then (s, Err(ConnectedError(receiver).value))
      else (Deliver(s, peer.n, buf), Ok(|buf|))
  }

  function SendMsg(s: State, sender: Id, payload: seq<byte>): (State, Outcome) {
    var peer := PeerOf(s, sender);
    if peer.Err? then (s, peer)
    else if ConnectedError(s.socks[peer.n]).Some? then (s, Err(ConnectedError(s.socks[peer.n]).value))
    else (Deliver(s, peer.n, payload), Ok(|payload|))
  }

  /** The first bytes of the queue, at most `n`, and the queue without them. */
  function Take(ps: seq<Packet>, n: nat): (seq<byte>, seq<Packet>)
    decreases ps
  {
    if n == 0 || ps == [] || Rest(ps[0]) == [] then ([], ps)
    else if |Rest(ps[0])| <= n then
      var (out, left) := Take(ps[1..], n - |Rest(ps[0])|);
      (Rest(ps[0]) + out, left)
    else (Rest(ps[0])[..n], [Packet(ps[0].payload, ps[0].readOffset + n)] + ps[1..])
  }

  function Consume(s: State, id: Id, n: nat): (State, seq<byte>)
    requires id in s.socks && s.socks[id].conn.Some?
  {
    var c := s.socks[id].conn.value;
    var (out, left) := Take(c.packets, n);
    (Put(s, id, s.socks[id].(conn := Some(c.(packets := left)))), out)
  }

  /** `read`; `nonblock` is the flag of this call.  Returns the bytes put into the buffer. */
  function Read(s: State, id: Id, n: nat, nonblock: bool): (State, Outcome, seq<byte>) {
    if id !in s.socks then (s, Err(EBADF), [])
    else
      var k := s.socks[id];
      if k.phase.Closed? then (s, Ok(0), [])
      else if k.phase.Listening? then (s, Err(EOPNOTSUPP), [])
      else if ConnectedError(k).Some? then (s, Err(ConnectedError(k).value), [])
      else
        var (s1, out) := Consume(s, id, n);
        (s1, if out != [] then Ok(|out|) else if k.conn.value.peerShutdown then Ok(0) else WouldBlock(nonblock), out)
  }

  /** `recvmsg` with room for `n` bytes of payload; an empty queue is end of file or would block. */
  function RecvMsg(s: State, id: Id, n: nat, nonblock: bool): (State, Outcome, seq<byte>) {
    if id !in s.socks then (s, Err(EBADF), [])
    else
      var k := s.socks[id];
      if k.phase.Closed? then (s, Ok(0), [])
      else if k.phase.Listening? then (s, Err(EOPNOTSUPP), [])
      else if !k.phase.Connected() then (s, Err(ENOTCONN), [])
      else if k.conn.None? then (s, Err(EPROTO), [])
      else if k.conn.value.packets == [] then
        (s, if k.conn.value.peerShutdown then Ok(0) else WouldBlock(k.nonblock || nonblock), [])
      else
        var (s1, out) := Consume(s, id, n);
        (s1, Ok(|out|), out)
  }

  // ---------------------------------------------------------------- closing

  function MarkClosed(s: State, ids: seq<Id>): State
    decreases ids
  {
    if ids == [] then s
    else MarkClosed(if ids[0] in s.socks then Put(s, ids[0], s.socks[ids[0]].(phase := Closed)) else s, ids[1..])
  }

  /** Tells the other end of a connected socket that it is gone. */
  function ShutPeer(s: State, k: Socket): State {
    if k.phase.Connected() && k.conn.Some? && k.conn.value.peer in s.socks && s.socks[k.conn.value.peer].conn.Some? then
      var p := k.conn.value.peer;
      Put(s, p, s.socks[p].(conn := Some(s.socks[p].conn.value.(peerShutdown := true))))
    else s
  }

  function Close(s: State, id: Id): State {
    if id !in s.socks then s
    else
      var k := s.socks[id];
      var s1 := s.(socks := s.socks - {id});
      if k.phase.Listening? then MarkClosed(s1, k.awaiting) else ShutPeer(s1, k)
  }

  // ---------------------------------------------------------------- events

  datatype Event =
    | OpenEvent(nonblock: bool)
    | BindEvent(id: Id)
    | ConnectEvent(client: Id, listener: Id)
    | PairEvent(base: Id)
    | ListenEvent(id: Id)
    | WriteEvent(id: Id, buf: seq<byte>)
    | SendMsgEvent(id: Id, buf: seq<byte>)
    | ReadEvent(id: Id, room: nat, nb: bool)
    | RecvMsgEvent(id: Id, room: nat, nb: bool)
    | CloseEvent(id: Id)
    | SetFlagsEvent(id: Id, nonblock: bool)

  function SetFlags(s: State, id: Id, nonblock: bool): State {
    if id in s.socks then Put(s, id, s.socks[id].(nonblock := nonblock)) else s
  }

  function Next(s: State, e: Event): State {
    match e
    case OpenEvent(nonblock) => Open(s, nonblock)
    case BindEvent(id) => Bind(s, id).0
    case ConnectEvent(client, listener) => Connect(s, client, listener).0
    case PairEvent(base) => SocketPair(s, base).0
    case ListenEvent(id) => Listen(s, id).0
    case WriteEvent(id, buf) => Write(s, id, buf).0
    case SendMsgEvent(id, buf) => SendMsg(s, id, buf).0
    case ReadEvent(id, room, nb) => Read(s, id, room, nb).0
    case RecvMsgEvent(id, room, nb) => RecvMsg(s, id, room, nb).0
    case CloseEvent(id) => Close(s, id)
    case SetFlagsEvent(id, nonblock) => SetFlags(s, id, nonblock)
  }
}
