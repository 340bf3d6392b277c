/** What the stream calls answer where peers agree: whom an accept hands out, and how each call ends. */
module StreamAnswers {
  import opened Prelude
  import opened StreamModel
  import opened StreamQueue
  import opened StreamPeers

  /** Not yet: the error depends on the non-blocking flag. */
  ghost predicate NotYet(o: Outcome, nonblock: bool) {
    (nonblock ==> o == Err(EAGAIN)) && (!nonblock ==> o == Err(EWOULDBLOCK))
  }

  // ---------------------------------------------------------------- accepting

  /** The first client of the queue that is still there. */
  ghost predicate FirstLive(s: State, q: seq<Id>, k: nat) {
    k < |q| && q[k] in s.socks && forall j | 0 <= j < k :: q[j] !in s.socks
  }

  ghost predicate SomeLive(s: State, q: seq<Id>) {
    exists c | c in q :: c in s.socks
  }

  /** Socket `a` is new and connected to `c`, which it points at and which points back; the parked bytes are its own now. */
  ghost predicate Joins(s: State, t: State, l: Id, a: Id, c: Id)
    requires l in s.socks && c in s.socks && s.socks[c].conn.Some?
  {
    && a !in s.socks && a in t.socks && c in t.socks && t.socks.Keys == s.socks.Keys + {a}
    && t.socks[a].phase.Established? && t.socks[a].nonblock == s.socks[l].nonblock
    && t.socks[a].conn == Some(Connection(c, s.socks[c].conn.value.packets, false))
    && t.socks[c].phase.Accepted? && t.socks[c].conn.Some? && t.socks[c].conn.value.peer == a && t.socks[c].conn.value.packets == []
    && forall o | o in s.socks && o != c && o != l :: t.socks[o] == s.socks[o]
  }

  /** Accepting from the queue of `l` hands out the first client still there, or has to wait. */
  ghost predicate Accepts(s: State, t: State, o: Outcome, l: Id)
    requires l in s.socks
  {
    var q := s.socks[l].awaiting;
    && (!SomeLive(s, q) ==> NotYet(o, s.socks[l].nonblock) && t.socks.Keys == s.socks.Keys)
    && (forall k: nat {:trigger FirstLive(s, q, k)} | FirstLive(s, q, k) :: Hands(s, t, o, l, k))
  }

  /** The `k`-th client of the queue is handed out, and those behind it go on waiting. */
  ghost predicate Hands(s: State, t: State, o: Outcome, l: Id, k: nat)
    requires l in s.socks && k < |s.socks[l].awaiting|
  {
    var q := s.socks[l].awaiting;
    && o.Ok? && q[k] in s.socks && s.socks[q[k]].conn.Some? && Joins(s, t, l, o.n, q[k])
    && l in t.socks && t.socks[l].awaiting == q[k + 1..]
  }

  lemma NextIsFree(s: State)
    requires PeersAgree(s)
    ensures s.nextId !in s.socks
  {
    forall a | a in s.socks ensures a < s.nextId { assert SockOk(s, a); }
  }

  lemma AcceptsHead(s: State, l: Id)
    requires PeersAgree(s) && l in s.socks && s.socks[l].awaiting != [] && s.socks[l].awaiting[0] in s.socks
    ensures Accepts(s, Accept(s, l).0, Accept(s, l).1, l)
  {
    var q := s.socks[l].awaiting;
    var c := q[0];
    assert QueueOk(s, l) && ClientOk(s, l, c) && SockOk(s, c) && SockOk(s, l);
    NextIsFree(s);
    assert SomeLive(s, q);
    forall k: nat | FirstLive(s, q, k) ensures Hands(s, Accept(s, l).0, Accept(s, l).1, l, k) { assert k == 0; }
  }

  lemma {:induction false} AcceptAnswers(s: State, l: Id)
    requires PeersAgree(s) && l in s.socks
    ensures Accepts(s, Accept(s, l).0, Accept(s, l).1, l)
    decreases |s.socks[l].awaiting|
  {
    var q := s.socks[l].awaiting;
    if q != [] && q[0] in s.socks {
      AcceptsHead(s, l);
    } else if q != [] {
      var s1 := Put(s, l, s.socks[l].(awaiting := q[1..]));
      assert QueueOk(s, l) && ClientOk(s, l, q[0]);
      PopKeepsQueues(s, l);
      forall a | a in s1.socks ensures SockOk(s1, a) { assert SockOk(s, a) && a != q[0]; }
      AcceptAnswers(s1, l);
      SkipsGone(s, s1, Accept(s, l).0, Accept(s, l).1, l);
    }
  }

  /** The states differ at most in the phase and the queue of `l`. */
  ghost predicate AlikeBut(s: State, s1: State, l: Id) {
    && s1.socks.Keys == s.socks.Keys && l in s.socks && s1.socks[l].nonblock == s.socks[l].nonblock
    && forall o | o in s.socks && o != l :: s1.socks[o] == s.socks[o]
  }

  lemma JoinsAlike(s: State, s1: State, t: State, l: Id, a: Id, c: Id)
    requires AlikeBut(s, s1, l) && c in s1.socks && c != l && s1.socks[c].conn.Some? && Joins(s1, t, l, a, c)
    ensures s.socks[c].conn.Some? && Joins(s, t, l, a, c)
  {}

  /** A client that is gone makes no difference. */
  lemma SkipsGone(s: State, s1: State, t: State, o: Outcome, l: Id)
    requires l in s.socks && s.socks[l].awaiting != [] && s.socks[l].awaiting[0] !in s.socks && QueueOk(s, l)
    requires s1 == Put(s, l, s.socks[l].(awaiting := s.socks[l].awaiting[1..])) && Accepts(s1, t, o, l)
    ensures Accepts(s, t, o, l)
  {
    var q := s.socks[l].awaiting;
    if SomeLive(s1, q[1..]) {
      var c :| c in q[1..] && c in s1.socks;
      assert c in q && SomeLive(s, q);
    }
    forall k: nat | FirstLive(s, q, k) ensures Hands(s, t, o, l, k) {
      SkippedLive(s, s1, l, k);
      assert Hands(s1, t, o, l, k - 1);
      assert q[1..][k - 1] == q[k] && q[1..][k..] == q[k + 1..];
      assert q[k] in q && ClientOk(s, l, q[k]);
      JoinsAlike(s, s1, t, l, o.n, q[k]);
    }
  }

  lemma SkippedLive(s: State, s1: State, l: Id, k: nat)
    requires l in s.socks && s.socks[l].awaiting != [] && s.socks[l].awaiting[0] !in s.socks
    requires s1 == Put(s, l, s.socks[l].(awaiting := s.socks[l].awaiting[1..])) && FirstLive(s, s.socks[l].awaiting, k)
    ensures k > 0 && FirstLive(s1, s1.socks[l].awaiting, k - 1)
  {
    var q := s.socks[l].awaiting;
    assert q[1..][k - 1] == q[k];
    forall j | 0 <= j < k - 1 ensures q[1..][j] !in s1.socks { assert q[1..][j] == q[j + 1]; }
  }

  ghost predicate MayListen(s: State, l: Id) { l in s.socks && ListeningSide(s.socks[l].phase) }

  /**
   Listening hands out a socket exactly if the socket may listen and some queued client is still
   there.  The socket is new, and it and the first such client are each other's peers.
   */
  lemma ListenAnswers(s: State, l: Id)
    requires PeersAgree(s)
    ensures
      var (t, o) := Listen(s, l);
      && (o.Ok? <==> MayListen(s, l) && SomeLive(s, s.socks[l].awaiting))
      && (MayListen(s, l) ==> Accepts(s, t, o, l))
      && (l !in s.socks ==> o == Err(EBADF) && t == s)
      && (l in s.socks && !MayListen(s, l) ==> o == Err(EINVAL) && t == s)
  {
    if MayListen(s, l) {
      var s1 := Ready(s, l);
      assert SockOk(s, l) && QueueOk(s, l);
      if !s.socks[l].phase.Listening? {
        assert s1 == Put(s, l, s.socks[l].(phase := Listening, token := s.socks[l].token));
        StartListeningKeeps(s, l, s.socks[l].token);
      }
      AcceptAnswers(s1, l);
      ReadyAccepts(s, l, Listen(s, l).0, Listen(s, l).1);
      if SomeLive(s, s.socks[l].awaiting) {
        var k := FindLive(s, s.socks[l].awaiting);
        assert Hands(s, Listen(s, l).0, Listen(s, l).1, l, k);
      }
    }
  }

  /** The socket listens. */
  function Ready(s: State, l: Id): State
    requires l in s.socks
  {
    if s.socks[l].phase.Listening? then s else Put(s, l, s.socks[l].(phase := Listening))
  }

  lemma ReadyAccepts(s: State, l: Id, t: State, o: Outcome)
    requires l in s.socks && QueueOk(s, l) && Accepts(Ready(s, l), t, o, l)
    ensures Accepts(s, t, o, l)
  {
    var q, s1 := s.socks[l].awaiting, Ready(s, l);
    if SomeLive(s1, q) {
      var c :| c in q && c in s1.socks;
      assert SomeLive(s, q);
    }
    forall k: nat | FirstLive(s, q, k) ensures Hands(s, t, o, l, k) {
      assert FirstLive(s1, q, k) && Hands(s1, t, o, l, k);
      assert q[k] in q && ClientOk(s, l, q[k]);
      JoinsAlike(s, s1, t, l, o.n, q[k]);
    }
  }

  lemma {:induction false} FindLive(s: State, q: seq<Id>) returns (k: nat)
    requires SomeLive(s, q)
    ensures FirstLive(s, q, k)
    decreases q
  {
    if q[0] in s.socks {
      k := 0;
    } else {
      var c :| c in q && c in s.socks;
      assert c in q[1..];
      k := FindLive(s, q[1..]);
      k := k + 1;
    }
  }

  // ---------------------------------------------------------------- binding and connecting

  lemma OpenAnswers(s: State, nonblock: bool)
    requires PeersAgree(s)
    ensures
      var t := Open(s, nonblock);
      && t.socks.Keys == s.socks.Keys + {s.nextId} && s.nextId !in s.socks && t.nextId == s.nextId + 1
      && t.socks[s.nextId].phase.Unbound? && t.socks[s.nextId].conn.None? && t.socks[s.nextId].nonblock == nonblock
      && forall o | o in s.socks :: t.socks[o] == s.socks[o]
  {
    NextIsFree(s);
  }

  lemma BindAnswers(s: State, id: Id)
    ensures
      var (t, o) := Bind(s, id);
      && (o == Ok(0) <==> id in s.socks && s.socks[id].phase.Unbound?)
      && (o == Ok(0) ==> id in t.socks && t.socks[id].phase.Listening? && t.socks[id].token)
      && (o != Ok(0) ==> t == s && o == Err(if id in s.socks then EINVAL else EBADF))
  {}

  /** The client waits at the end of the listener's queue, with nothing sent yet. */
  ghost predicate Waits(s: State, t: State, c: Id, l: Id)
    requires l in s.socks
  {
    && c in t.socks && t.socks[c].phase.Connecting? && t.socks[c].conn == Some(Connection(l, [], false))
    && l in t.socks && t.socks[l].awaiting == s.socks[l].awaiting + [c]
  }

  /**
   Connecting succeeds exactly for a client some listener has accepted, and establishes it.
   Otherwise an unconnected client waits, once, for the listener it names.
   */
  lemma ConnectAnswers(s: State, c: Id, l: Id)
    requires PeersAgree(s)
    ensures
      var (t, o) := Connect(s, c, l);
      if l !in s.socks || !s.socks[l].token then o == Err(ECONNREFUSED) && t == s
      else if c !in s.socks then o == Err(EBADF) && t == s
      else if c == l then o.Err? && t == s
      else if s.socks[c].phase.Established? then o == Err(EISCONN) && t == s
      else if s.socks[c].phase.Accepted? then o == Ok(0) && t == Put(s, c, s.socks[c].(phase := Established))
      else NotYet(o, s.socks[c].nonblock) && (if c in s.socks[l].awaiting then t == s else Waits(s, t, c, l))
  {
    if c in s.socks && l in s.socks {
      assert SockOk(s, c) && SockOk(s, l) && QueueOk(s, l);
      if c in s.socks[l].awaiting { assert ClientOk(s, l, c); }
    }
  }

  lemma PairAnswers(s: State, base: Id)
    requires PeersAgree(s)
    ensures
      var (t, o) := SocketPair(s, base);
      if base !in s.socks then o == Err(EBADF) && t == s
      else if s.socks[base].phase.Closed? then o == Err(EPIPE) && t == s
      else o.Ok? && o.n !in s.socks && Waits(s, t, o.n, base) && t.socks[o.n].nonblock == s.socks[base].nonblock
  {
    NextIsFree(s);
  }

  // ---------------------------------------------------------------- sending

  function Queue(s: State, a: Id): seq<byte>
    requires a in s.socks && s.socks[a].conn.Some?
  {
    Flatten(s.socks[a].conn.value.packets)
  }

  /** The bytes are added behind those queued at `a`, and nothing else changes. */
  ghost predicate Adds(s: State, t: State, a: Id, buf: seq<byte>)
    requires a in s.socks && s.socks[a].conn.Some?
  {
    && t.socks.Keys == s.socks.Keys && t.socks[a].conn.Some? && Queue(t, a) == Queue(s, a) + buf
    && forall o | o in s.socks && o != a :: t.socks[o] == s.socks[o]
  }

  lemma DeliverAdds(s: State, a: Id, buf: seq<byte>)
    requires a in s.socks && s.socks[a].conn.Some?
    ensures Adds(s, Deliver(s, a, buf), a, buf)
  {
    AppendExact(s.socks[a].conn.value, buf);
  }

  /**
   A connected socket with a live peer delivers all it writes; one that still waits for a
   listener parks it with itself; one whose peer is gone is told so.
   */
  lemma WriteAnswers(s: State, a: Id, buf: seq<byte>)
    requires PeersAgree(s)
    ensures
      var (t, o) := Write(s, a, buf);
      if a !in s.socks then o == Err(EBADF) && t == s
      else if s.socks[a].conn.None? then o == Err(EPROTO) && t == s
      else
        var p := s.socks[a].conn.value.peer;
        if p !in s.socks then o == Err(EPIPE) && t == s
        else if s.socks[a].phase.Connected() then o == Ok(|buf|) && s.socks[p].conn.Some? && Adds(s, t, p, buf)
        else if s.socks[p].phase.Listening? then o == Ok(|buf|) && Adds(s, t, a, buf)
        else o == Err(ENOTCONN) && t == s
  {
    if a in s.socks {
      assert SockOk(s, a);
      if s.socks[a].conn.Some? {
        var p := s.socks[a].conn.value.peer;
        DeliverAdds(s, a, buf);
        if p in s.socks {
          assert SockOk(s, p) && QueueOk(s, p);
          if s.socks[p].conn.Some? { DeliverAdds(s, p, buf); }
        }
      }
    }
  }

  lemma SendMsgAnswers(s: State, a: Id, buf: seq<byte>)
    requires PeersAgree(s)
    ensures
      var (t, o) := SendMsg(s, a, buf);
      if a !in s.socks then o == Err(EBADF) && t == s
      else if s.socks[a].conn.None? then o == Err(EPROTO) && t == s
      else
        var p := s.socks[a].conn.value.peer;
        if p !in s.socks then o == Err(EPIPE) && t == s
        else if s.socks[a].phase.Connected() then o == Ok(|buf|) && s.socks[p].conn.Some? && Adds(s, t, p, buf)
        else o == Err(ENOTCONN) && t == s
  {
    if a in s.socks {
      assert SockOk(s, a);
      if s.socks[a].conn.Some? {
        var p := s.socks[a].conn.value.peer;
        if p in s.socks {
          assert SockOk(s, p) && QueueOk(s, p);
          if s.socks[p].conn.Some? { DeliverAdds(s, p, buf); }
        }
      }
    }
  }

  // ---------------------------------------------------------------- receiving

  /** The first bytes queued, at most `n`, are taken, and nothing else changes. */
  ghost predicate Takes(s: State, t: State, a: Id, n: nat, out: seq<byte>)
    requires a in s.socks && s.socks[a].conn.Some?
  {
    && t.socks.Keys == s.socks.Keys && t.socks[a].conn.Some? && Queue(s, a) == out + Queue(t, a) && |out| == Min(n, |Queue(s, a)|)
    && forall o | o in s.socks && o != a :: t.socks[o] == s.socks[o]
  }

  lemma ConsumeTakes(s: State, a: Id, n: nat)
    requires a in s.socks && s.socks[a].conn.Some? && Solid(s.socks[a].conn.value.packets)
    ensures Takes(s, Consume(s, a, n).0, a, n, Consume(s, a, n).1)
  {
    TakeExact(s.socks[a].conn.value.packets, n);
    var all, k := Queue(s, a), Min(n, |Queue(s, a)|);
    assert all == all[..k] + all[k..];
  }

  /** Bytes if there are any, end of file once the peer is gone, and otherwise not yet. */
  lemma ReadAnswers(s: State, a: Id, n: nat, nb: bool)
    requires PeersAgree(s)
    ensures
      var (t, o, out) := Read(s, a, n, nb);
      if a !in s.socks then o == Err(EBADF) && t == s && out == []
      else if s.socks[a].phase.Connected() then
        && s.socks[a].conn.Some? && Takes(s, t, a, n, out)
        && (out != [] ==> o == Ok(|out|))
        && (out == [] ==> if s.socks[a].conn.value.peer !in s.socks then o == Ok(0) else NotYet(o, nb))
      else
        && t == s && out == []
        && (s.socks[a].phase.Closed? ==> o == Ok(0))
        && (s.socks[a].phase.Listening? ==> o == Err(EOPNOTSUPP))
        && (s.socks[a].phase.Connecting? ==> NotYet(o, s.socks[a].nonblock))
        && (s.socks[a].phase.Unbound? || s.socks[a].phase.Bound? ==> o == Err(ENOTCONN))
  {
    if a in s.socks {
      assert SockOk(s, a);
      if s.socks[a].phase.Connected() { ConsumeTakes(s, a, n); }
    }
  }

  lemma RecvMsgAnswers(s: State, a: Id, n: nat, nb: bool)
    requires PeersAgree(s)
    ensures
      var (t, o, out) := RecvMsg(s, a, n, nb);
      if a !in s.socks then o == Err(EBADF) && t == s && out == []
      else if s.socks[a].phase.Connected() then
        && s.socks[a].conn.Some? && Takes(s, t, a, n, out)
        && (Queue(s, a) != [] ==> o == Ok(|out|))
        && (Queue(s, a) == [] ==> if s.socks[a].conn.value.peer !in s.socks then o == Ok(0) else NotYet(o, s.socks[a].nonblock || nb))
      else
        && t == s && out == []
        && (s.socks[a].phase.Closed? ==> o == Ok(0))
        && (s.socks[a].phase.Listening? ==> o == Err(EOPNOTSUPP))
        && (s.socks[a].phase.Unbound? || s.socks[a].phase.Bound? || s.socks[a].phase.Connecting? ==> o == Err(ENOTCONN))
  {
    if a in s.socks {
      assert SockOk(s, a);
      if s.socks[a].phase.Connected() {
        ConsumeTakes(s, a, n);
        TakeNothing(s.socks[a].conn.value.packets, 1);
      }
    }
  }

  // ---------------------------------------------------------------- closing

  /** The peer of a closed connection is told; clients waiting for a closed listener are closed; nobody else changes. */
  lemma CloseAnswers(s: State, a: Id, o: Id)
    requires PeersAgree(s) && a in s.socks && o in s.socks && o != a
    ensures
      var t, k := Close(s, a), s.socks[a];
      && a !in t.socks && o in t.socks
      && (k.phase.Listening? && o in k.awaiting ==> t.socks[o] == s.socks[o].(phase := Closed))
      && (k.phase.Connected() && k.conn.Some? && k.conn.value.peer == o ==>
            t.socks[o].conn.Some? && t.socks[o].conn.value.peerShutdown && t.socks[o].phase == s.socks[o].phase
            && s.socks[o].conn.Some? && t.socks[o].conn.value.packets == s.socks[o].conn.value.packets)
      && (!(k.phase.Listening? && o in k.awaiting) && !(k.phase.Connected() && k.conn.Some? && k.conn.value.peer == o) ==> t.socks[o] == s.socks[o])
  {
    assert SockOk(s, a) && SockOk(s, o);
    MarkClosedEffect(s.(socks := s.socks - {a}), s.socks[a].awaiting, o);
  }
}
