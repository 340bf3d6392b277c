/** The byte queue: reading takes exactly a prefix and leaves exactly the suffix. */
module StreamQueue {
  import opened Prelude
  import opened Bytes
  import opened StreamModel

  /** No packet is empty or fully read. */
  ghost predicate Solid(ps: seq<Packet>) {
    forall i | 0 <= i < |ps| :: Rest(ps[i]) != []
  }

  lemma {:induction false} TakeExact(ps: seq<Packet>, n: nat)
    requires Solid(ps)
    ensures
      var (out, left) := Take(ps, n);
      var all, k := Flatten(ps), Min(n, |Flatten(ps)|);
      out == all[..k] && Flatten(left) == all[k..] && Solid(left)
    decreases ps
  {
    if n != 0 && ps != [] {
      var r := Rest(ps[0]);
      var all := Flatten(ps);
      assert all == r + Flatten(ps[1..]);
      if |r| <= n {
        TakeExact(ps[1..], n - |r|);
        var k, k' := Min(n, |all|), Min(n - |r|, |Flatten(ps[1..])|);
        assert all[..k] == r + Flatten(ps[1..])[..k'];
        assert all[k..] == Flatten(ps[1..])[k'..];
      } else {
        var p' := Packet(ps[0].payload, ps[0].readOffset + n);
        var left := [p'] + ps[1..];
        assert left[1..] == ps[1..];
        assert Rest(p') == r[n..];
        assert all[n..] == r[n..] + Flatten(ps[1..]);
      }
    }
  }

  /** A solid queue that gives up nothing to a non-empty buffer is empty. */
  lemma TakeNothing(ps: seq<Packet>, n: nat)
    requires Solid(ps) && n > 0
    ensures Take(ps, n).0 == [] <==> ps == []
    ensures Flatten(ps) == [] <==> ps == []
  {
    if ps != [] { assert Rest(ps[0]) != []; }
  }

  lemma {:induction false} FlattenAppend(ps: seq<Packet>, qs: seq<Packet>)
    ensures Flatten(ps + qs) == Flatten(ps) + Flatten(qs)
    decreases ps
  {
    if ps == [] {
      assert ps + qs == qs;
    } else {
      assert (ps + qs)[1..] == ps[1..] + qs;
      FlattenAppend(ps[1..], qs);
    }
  }

  lemma AppendExact(c: Connection, buf: seq<byte>)
    ensures Flatten(Append(c, buf).packets) == Flatten(c.packets) + buf
    ensures Solid(c.packets) ==> Solid(Append(c, buf).packets)
  {
    if buf != [] {
      var p: Packet := Packet(buf, 0);
      FlattenAppend(c.packets, [p]);
      assert Flatten([p]) == Rest(p) + Flatten([p][1..]);
    }
  }

  /**
   The copy loop of `read`: fills the buffer from the front of the queue.  The exit for an empty
   packet is never taken on a solid queue, so the loop ends with the buffer full or the queue empty.
   */
  method ReadInner(packets: seq<Packet>, buf: array<byte>) returns (total: nat, left: seq<Packet>)
    modifies buf
    ensures
      var (out, rest) := Take(packets, buf.Length);
      left == rest && total == |out| <= buf.Length && buf[..] == out + old(buf[..])[total..]
    ensures Solid(packets) ==> total == buf.Length || left == []
  {
    total, left := 0, packets;
    ghost var goal, done, was := Take(packets, buf.Length), [], buf[..];
    ResumeStart(packets, buf.Length);
    while total < buf.Length && left != []
      invariant |was| == buf.Length && |done| == total && Filled(buf[..], done, was)
      invariant Resumes(goal, done, left, buf.Length - total) && (Solid(packets) ==> Solid(left))
      decreases |left|, buf.Length - total
    {
      if Solid(packets) { NeverStuck(left, buf.Length - total); }
      var copied := Min(|Rest(left[0])|, buf.Length - total);
      if copied == 0 {
        assert !Solid(packets);
        break;
      }
      ghost var chunk := Rest(left[0])[..copied];
      ReadChunk(buf, total, done, was, Rest(left[0])[..copied]);
      ResumeStep(goal, done, left, buf.Length - total);
      total, done := total + copied, done + chunk;
      left := Advance(left, copied);
    }
    ResumeEnd(goal, done, left, buf.Length - total);
  }

  /** The buffer starts with `done` and is otherwise what it was. */
  ghost predicate Filled(s: seq<byte>, done: seq<byte>, was: seq<byte>) {
    |done| <= |was| && s == done + was[|done|..]
  }

  lemma SpliceTail(done: seq<byte>, was: seq<byte>, data: seq<byte>)
    requires |done| + |data| <= |was|
    ensures Splice(done + was[|done|..], |done|, data) == (done + data) + was[|done| + |data|..]
  {
    var s := done + was[|done|..];
    assert s[..|done|] == done;
    assert s[|done| + |data|..] == was[|done| + |data|..];
  }

  /** Adds `data` behind what has been copied into the buffer so far. */
  method ReadChunk(buf: array<byte>, at: nat, ghost done: seq<byte>, ghost was: seq<byte>, data: seq<byte>)
    requires at == |done| && |was| == buf.Length && at + |data| <= buf.Length && Filled(buf[..], done, was)
    modifies buf
    ensures Filled(buf[..], done + data, was)
  {
    SpliceTail(done, was, data);
    CopyInto(buf, at, data);
  }

  /** Having copied `done`, taking `room` more from `left` completes `goal`. */
  ghost predicate Resumes(goal: (seq<byte>, seq<Packet>), done: seq<byte>, left: seq<Packet>, room: nat) {
    goal.0 == done + Take(left, room).0 && goal.1 == Take(left, room).1
  }

  /** The queue once `copied` bytes of its first packet have been read. */
  function Advance(left: seq<Packet>, copied: nat): seq<Packet>
    requires left != [] && copied <= |Rest(left[0])|
  {
    var packet := left[0];
    if packet.readOffset + copied >= |packet.payload| then left[1..]
    else [Packet(packet.payload, packet.readOffset + copied)] + left[1..]
  }

  lemma ResumeStep(goal: (seq<byte>, seq<Packet>), done: seq<byte>, left: seq<Packet>, room: nat)
    requires Resumes(goal, done, left, room) && room > 0 && left != [] && Rest(left[0]) != []
    ensures
      var copied := Min(|Rest(left[0])|, room);
      Resumes(goal, done + Rest(left[0])[..copied], Advance(left, copied), room - copied)
  {
    var rem := Rest(left[0]);
    if |rem| <= room {
      var more := Take(left[1..], room - |rem|).0;
      assert rem[..|rem|] == rem;
      assert done + (rem + more) == (done + rem) + more;
    } else {
      assert done + rem[..room] + [] == done + rem[..room];
    }
  }

  /** In a queue without empty packets a turn of the copy loop always copies something. */
  lemma NeverStuck(left: seq<Packet>, room: nat)
    requires Solid(left) && left != [] && room > 0
    ensures var copied := Min(|Rest(left[0])|, room); copied > 0 && Solid(Advance(left, copied))
  {
    var copied := Min(|Rest(left[0])|, room);
    assert Rest(left[0]) != [];
    var next := Advance(left, copied);
    forall i | 0 <= i < |next| ensures Rest(next[i]) != [] {
      if |next| < |left| {
        assert next[i] == left[i + 1];
      } else if i > 0 {
        assert next[i] == left[i];
      }
    }
  }

  lemma ResumeStart(packets: seq<Packet>, room: nat)
    ensures Resumes(Take(packets, room), [], packets, room)
  {
    assert [] + Take(packets, room).0 == Take(packets, room).0;
  }

  lemma ResumeEnd(goal: (seq<byte>, seq<Packet>), done: seq<byte>, left: seq<Packet>, room: nat)
    requires Resumes(goal, done, left, room) && (room == 0 || left == [] || Rest(left[0]) == [])
    ensures goal == (done, left)
  {
    assert done + [] == done;
  }
}
