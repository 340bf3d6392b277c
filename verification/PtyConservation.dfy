/** In raw mode nothing the master sends is lost, doubled or reordered on its way to the slave. */
module PtyConservation {
  import opened Prelude
  import opened Bytes
  import opened PtyModel

  function Flatten(packets: seq<seq<byte>>): seq<byte> {
    if packets == [] then [] else packets[0] + Flatten(packets[1..])
  }

  /** Everything on its way to the slave, oldest first. */
  function Content(p: Pty): seq<byte> { Flatten(p.mosi) + p.cooked }

  lemma {:induction false} FlattenSnoc(packets: seq<seq<byte>>, last: seq<byte>)
    ensures Flatten(packets + [last]) == Flatten(packets) + last
    decreases packets
  {
    if packets == [] {
      assert [last][1..] == [] && packets + [last] == [last];
    } else {
      FlattenSnoc(packets[1..], last);
      assert (packets + [last])[1..] == packets[1..] + [last];
    }
  }

  lemma CommitKeeps(p: Pty)
    ensures Content(Commit(p)) == Content(p)
  {
    FlattenSnoc(p.mosi, p.cooked);
  }

  /** The packetiser only moves bytes along. */
  lemma UpdateKeeps(p: Pty)
    ensures Content(Update(p)) == Content(p) && Update(p).termios == p.termios
  {
    CommitKeeps(p);
    CommitKeeps(p.(timeoutCharacter := None));
  }

  // ---------------------------------------------------------------- what becomes of a byte

  /** Characters that are acted on instead of being passed on, in raw mode. */
  predicate Special(t: Termios, b: byte) {
    || (t.isig && (IsCc(b, t.vintr) || IsCc(b, t.vquit) || IsCc(b, t.vsusp)))
    || (t.ixon && (IsCc(b, t.vstart) || IsCc(b, t.vstop)))
    || (t.iexten && (IsCc(b, t.vlnext) || IsCc(b, t.vdiscard)))
  }

  function Shown(t: Termios, b: byte): seq<byte> { if b == 0 || Special(t, b) then [] else [b] }

  /**
   What the slave is to see of one byte: IGNCR drops a carriage return, ICRNL makes it a newline,
   INLCR makes a newline a carriage return.
   */
  function Seen(t: Termios, b: byte): seq<byte> {
    if b == CR && t.igncr then []
    else if b == CR && t.icrnl then Shown(t, LF)
    else if b == LF && t.inlcr then Shown(t, CR)
    else Shown(t, b)
  }

  /** The bytes the slave is to see of what the master sends. */
  function Passed(t: Termios, buf: seq<byte>): seq<byte> {
    if buf == [] then [] else Seen(t, buf[0]) + Passed(t, buf[1..])
  }

  lemma RawByte(p: Pty, b: byte)
    requires !p.termios.icanon
    ensures Content(InputByte(p, b)) == Content(p) + Seen(p.termios, b) && InputByte(p, b).termios == p.termios
  {
    var kept := Seen(p.termios, b);
    assert p.cooked + [] == p.cooked;
    assert InputByte(p, b).mosi == p.mosi;
    assert InputByte(p, b).cooked == p.cooked + kept;
    Assoc(Flatten(p.mosi), p.cooked, kept);
  }

  lemma {:induction false} RawBytes(p: Pty, buf: seq<byte>)
    requires !p.termios.icanon
    ensures Content(InputBytes(p, buf)) == Content(p) + Passed(p.termios, buf) && InputBytes(p, buf).termios == p.termios
    decreases buf
  {
    if buf == [] {
      assert Content(p) + [] == Content(p);
    } else {
      RawByte(p, buf[0]);
      RawBytes(InputByte(p, buf[0]), buf[1..]);
      Assoc(Content(p), Seen(p.termios, buf[0]), Passed(p.termios, buf[1..]));
    }
  }

  // ---------------------------------------------------------------- reading

  /** Taking the first `k` bytes of the first packet takes the first `k` bytes of all. */
  lemma TakeFront(packets: seq<seq<byte>>, k: nat)
    requires packets != [] && k <= |packets[0]|
    ensures
      var left := if k < |packets[0]| then [packets[0][k..]] + packets[1..] else packets[1..];
      packets[0][..k] + Flatten(left) == Flatten(packets)
  {
    var packet, rest := packets[0], packets[1..];
    var left := if k < |packet| then [packet[k..]] + rest else rest;
    assert packet == packet[..k] + packet[k..];
    assert k < |packet| ==> left[1..] == rest;
    assert Flatten(left) == packet[k..] + Flatten(rest);
    Assoc(packet[..k], packet[k..], Flatten(rest));
  }

  function Delivered(out: Option<seq<byte>>): seq<byte> { if out.Some? then out.value else [] }

  lemma ReadKeeps(p: Pty, room: nat)
    ensures
      var (q, out) := SlaveRead(p, room);
      && Delivered(out) + Content(q) == Content(p)
      && |Delivered(out)| <= room
      && q.termios == p.termios
  {
    UpdateKeeps(p);
    var u := Update(p);
    var (q, out) := SlaveRead(p, room);
    if u.mosi == [] {
      assert [] + Content(u) == Content(u);
    } else {
      TakeFront(u.mosi, Min(room, |u.mosi[0]|));
      Assoc(Delivered(out), Flatten(q.mosi), q.cooked);
    }
  }

  // ---------------------------------------------------------------- every interleaving

  datatype Event =
    | MasterSends(buf: seq<byte>)
    | Ticks(count: nat)
    | SlaveReads(room: nat)
    | SlaveWrites(buf: seq<byte>)
    | SetsTermios(t: Termios)

  /** The pty, the bytes read so far, and the bytes the slave was to see. */
  datatype Trace = Trace(pty: Pty, got: seq<byte>, passed: seq<byte>)

  function Next(s: Trace, e: Event): Trace {
    match e
    case MasterSends(buf) => Trace(Input(s.pty, buf), s.got, s.passed + Passed(s.pty.termios, buf))
    case Ticks(count) => s.(pty := Timeout(s.pty, count))
    case SlaveReads(room) =>
      var (q, out) := SlaveRead(s.pty, room);
      s.(pty := q, got := s.got + Delivered(out))
    case SlaveWrites(buf) => s.(pty := SlaveWrite(s.pty, buf).0)
    case SetsTermios(t) => s.(pty := s.pty.(termios := t))
  }

  function Run(s: Trace, es: seq<Event>): Trace
    decreases es
  {
    if es == [] then s else Run(Next(s, es[0]), es[1..])
  }

  /** Raw mode throughout: no event turns canonical mode on. */
  ghost predicate StaysRaw(es: seq<Event>) {
    forall e | e in es :: e.SetsTermios? ==> !e.t.icanon
  }

  ghost predicate Conserved(s: Trace, start: seq<byte>) {
    s.got + Content(s.pty) == start + s.passed && !s.pty.termios.icanon
  }

  lemma SendConserves(s: Trace, buf: seq<byte>, start: seq<byte>)
    requires Conserved(s, start)
    ensures Conserved(Next(s, MasterSends(buf)), start)
  {
    var more := Passed(s.pty.termios, buf);
    RawBytes(s.pty, buf);
    UpdateKeeps(InputBytes(s.pty, buf));
    Assoc(s.got, Content(s.pty), more);
    Assoc(start, s.passed, more);
  }

  lemma ReadConserves(s: Trace, room: nat, start: seq<byte>)
    requires Conserved(s, start)
    ensures Conserved(Next(s, SlaveReads(room)), start)
  {
    ReadKeeps(s.pty, room);
    var (q, out) := SlaveRead(s.pty, room);
    Assoc(s.got, Delivered(out), Content(q));
  }

  lemma TickConserves(s: Trace, count: nat, start: seq<byte>)
    requires Conserved(s, start)
    ensures Conserved(Next(s, Ticks(count)), start)
  {
    UpdateKeeps(s.pty.(timeoutCount := count));
  }

  lemma NextConserves(s: Trace, e: Event, start: seq<byte>)
    requires Conserved(s, start) && (e.SetsTermios? ==> !e.t.icanon)
    ensures Conserved(Next(s, e), start)
  {
    match e
    case MasterSends(buf) => SendConserves(s, buf, start);
    case Ticks(count) => TickConserves(s, count, start);
    case SlaveReads(room) => ReadConserves(s, room, start);
    case SlaveWrites(buf) =>
    case SetsTermios(t) =>
  }

  lemma {:induction false} RunConserves(s: Trace, es: seq<Event>, start: seq<byte>)
    requires Conserved(s, start) && StaysRaw(es)
    ensures Conserved(Run(s, es), start)
    decreases es
  {
    if es != [] {
      assert es[0] in es && forall e | e in es[1..] :: e in es;
      NextConserves(s, es[0], start);
      RunConserves(Next(s, es[0]), es[1..], start);
    }
  }

  /**
   However input, ticks, reads, writes and changes of the settings interleave, as long as raw
   mode stays on: what was read, then the queued packets, then the pending bytes are the content
   at the start followed by what the master sent, translated and filtered.
   */
  lemma RawModeConserves(p: Pty, es: seq<Event>)
    requires !p.termios.icanon && StaysRaw(es)
    ensures
      var s := Run(Trace(p, [], []), es);
      s.got + Flatten(s.pty.mosi) + s.pty.cooked == Content(p) + s.passed
  {
    assert [] + Content(p) == Content(p) + [];
    RunConserves(Trace(p, [], []), es, Content(p));
    var s := Run(Trace(p, [], []), es);
    Assoc(s.got, Flatten(s.pty.mosi), s.pty.cooked);
  }

  // ---------------------------------------------------------------- when a raw read waits

  /**
   A raw read on a pty with no packet ready waits exactly while fewer than VMIN bytes are pending
   and, with a timer, it has not run out since the last byte; VMIN and VTIME both zero never wait.
   */
  lemma RawReadWaitsIff(p: Pty, room: nat)
    requires !p.termios.icanon && p.mosi == []
    ensures
      var vmin, vtime := p.termios.vmin as nat, p.termios.vtime;
      SlaveRead(p, room).1.None? <==>
        if vmin == 0 then vtime != 0 && p.cooked == [] && !Expired(p)
        else |p.cooked| < vmin && (vtime == 0 || p.cooked == [] || !Expired(p))
  {}
}
