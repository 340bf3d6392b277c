/** Canonical mode: what typing does to the line, and what comes out as packets; and output. */
module PtyLines {
  import opened Prelude
  import opened Bytes
  import opened PtyModel
  import opened PtyConservation

  /** A byte no setting treats specially. */
  ghost predicate Ordinary(t: Termios, b: byte) {
    && b != 0 && b != LF && b != CR && !Special(t, b)
    && !IsCc(b, t.veof) && !IsCc(b, t.veol) && !IsCc(b, t.veol2) && !IsCc(b, t.verase)
    && !(IsCc(b, t.vwerase) && t.iexten) && !IsCc(b, t.vkill) && !(IsCc(b, t.vreprint) && t.iexten)
  }

  /** The erase character is there and means nothing else first. */
  ghost predicate Erasing(t: Termios) {
    var e := t.verase;
    t.icanon && e != 0 && e != LF && e != CR && !IsCc(e, t.veof) && !IsCc(e, t.veol) && !IsCc(e, t.veol2)
  }

  /** The same settings, packets and signals; `line` is being edited. */
  ghost predicate Editing(p: Pty, q: Pty, line: seq<byte>) {
    q.termios == p.termios && q.mosi == p.mosi && q.signals == p.signals && q.cooked == line
  }

  lemma TypesOne(p: Pty, b: byte)
    requires p.termios.icanon && Ordinary(p.termios, b)
    ensures Editing(p, InputByte(p, b), p.cooked + [b])
  {}

  lemma ErasesOne(p: Pty)
    requires Erasing(p.termios) && p.cooked != []
    ensures Editing(p, InputByte(p, p.termios.verase), p.cooked[..|p.cooked| - 1])
  {}

  lemma {:induction false} InputJoin(p: Pty, a: seq<byte>, b: seq<byte>)
    ensures InputBytes(p, a + b) == InputBytes(InputBytes(p, a), b)
    decreases a
  {
    if a == [] {
      assert a + b == b;
    } else {
      assert (a + b)[1..] == a[1..] + b;
      InputJoin(InputByte(p, a[0]), a[1..], b);
    }
  }

  function Erases(t: Termios, n: nat): seq<byte> { seq(n, _ => t.verase) }

  /** Erasing as often as ordinary bytes were typed gives the line back, whatever was on it. */
  lemma {:induction false} ErasesUndo(p: Pty, typed: seq<byte>)
    requires Erasing(p.termios) && forall b | b in typed :: Ordinary(p.termios, b)
    ensures Editing(p, InputBytes(p, typed + Erases(p.termios, |typed|)), p.cooked)
    decreases typed
  {
    if typed == [] {
      assert typed + Erases(p.termios, 0) == [];
    } else {
      var b, rest, e := typed[0], typed[1..], p.termios.verase;
      var q, inner := InputByte(p, b), rest + Erases(p.termios, |rest|);
      TypesOne(p, b);
      ErasesUndo(q, rest);
      var r := InputBytes(q, inner);
      ErasesOne(r);
      assert r.cooked[..|r.cooked| - 1] == p.cooked;
      assert typed + Erases(p.termios, |typed|) == [b] + (inner + [e]);
      assert ([b] + (inner + [e]))[1..] == inner + [e];
      InputJoin(q, inner, [e]);
      assert InputBytes(r, [e]) == InputBytes(InputByte(r, e), [e][1..]);
    }
  }

  // ---------------------------------------------------------------- ending a line

  /** The Enter key: a newline that is not translated away, or a carriage return made a newline. */
  ghost predicate Enter(t: Termios, b: byte) {
    (b == LF && !t.inlcr) || (b == CR && !t.igncr && t.icrnl)
  }

  /** One packet is added, the line is empty again, and nothing else a reader sees changes. */
  ghost predicate Ends(p: Pty, q: Pty, packet: seq<byte>) {
    q.termios == p.termios && q.signals == p.signals && q.mosi == p.mosi + [packet] && q.cooked == []
  }

  lemma EnterEnds(p: Pty, b: byte)
    requires p.termios.icanon && Enter(p.termios, b)
    ensures Ends(p, InputByte(p, b), p.cooked + [LF])
  {}

  lemma {:induction false} TypesAll(p: Pty, line: seq<byte>)
    requires p.termios.icanon && forall b | b in line :: Ordinary(p.termios, b)
    ensures Editing(p, InputBytes(p, line), p.cooked + line)
    decreases line
  {
    if line == [] {
      assert p.cooked + line == p.cooked;
    } else {
      TypesOne(p, line[0]);
      TypesAll(InputByte(p, line[0]), line[1..]);
      assert p.cooked + [line[0]] + line[1..] == p.cooked + line;
    }
  }

  /** Any line of ordinary bytes followed by Enter adds exactly one packet: what was pending, the line, a newline. */
  lemma LineEnds(p: Pty, line: seq<byte>, b: byte)
    requires p.termios.icanon && Enter(p.termios, b) && forall c | c in line :: Ordinary(p.termios, c)
    ensures Ends(p, InputBytes(p, line + [b]), p.cooked + line + [LF])
  {
    TypesAll(p, line);
    var q := InputBytes(p, line);
    EnterEnds(q, b);
    InputJoin(p, line, [b]);
    assert InputBytes(q, [b]) == InputBytes(InputByte(q, b), [b][1..]);
  }

  function Typed(lines: seq<seq<byte>>, b: byte): seq<byte> {
    if lines == [] then [] else lines[0] + [b] + Typed(lines[1..], b)
  }

  function Packets(lines: seq<seq<byte>>): seq<seq<byte>> { seq(|lines|, i requires 0 <= i < |lines| => lines[i] + [LF]) }

  /** Any number of lines typed arrive as that many packets, in order. */
  lemma {:induction false} LinesEnd(p: Pty, lines: seq<seq<byte>>, b: byte)
    requires p.termios.icanon && p.cooked == [] && Enter(p.termios, b)
    requires forall line, c | line in lines && c in line :: Ordinary(p.termios, c)
    ensures
      var q := InputBytes(p, Typed(lines, b));
      q.mosi == p.mosi + Packets(lines) && q.cooked == [] && q.termios == p.termios && q.signals == p.signals
    decreases lines
  {
    if lines == [] {
      assert p.mosi + Packets(lines) == p.mosi;
    } else {
      var first, q := lines[0] + [b], InputBytes(p, lines[0] + [b]);
      assert lines[0] in lines;
      LineEnds(p, lines[0], b);
      assert p.cooked + lines[0] + [LF] == lines[0] + [LF];
      LinesEnd(q, lines[1..], b);
      InputJoin(p, first, Typed(lines[1..], b));
      assert Packets(lines) == [lines[0] + [LF]] + Packets(lines[1..]);
      assert p.mosi + [lines[0] + [LF]] + Packets(lines[1..]) == p.mosi + Packets(lines);
    }
  }

  /** End to end: on an empty pty the slave then reads exactly the line typed and a newline. */
  lemma LineIsRead(p: Pty, line: seq<byte>, b: byte, room: nat)
    requires p.termios.icanon && p.cooked == [] && p.mosi == [] && Enter(p.termios, b) && |line| < room
    requires forall c | c in line :: Ordinary(p.termios, c)
    ensures
      var (q, out) := SlaveRead(Input(p, line + [b]), room);
      out == Some(line + [LF]) && q.mosi == [] && q.cooked == []
  {
    LineEnds(p, line, b);
    var q := InputBytes(p, line + [b]);
    assert p.cooked + line + [LF] == line + [LF] && [] + [line + [LF]] == [line + [LF]];
    assert q.mosi[0][..|line| + 1] == line + [LF];
  }

  // ---------------------------------------------------------------- the other characters

  /** A character the settings name, which translation leaves alone. */
  ghost predicate Named(b: byte, cc: byte) { b == cc && b != 0 && b != LF && b != CR }

  /** End of file hands over the line as it is, even an empty one. */
  lemma EofEnds(p: Pty, b: byte)
    requires p.termios.icanon && Named(b, p.termios.veof)
    ensures Ends(p, InputByte(p, b), p.cooked)
  {}

  /** The end-of-line characters hand over the line and themselves. */
  lemma EolEnds(p: Pty, b: byte)
    requires p.termios.icanon && (Named(b, p.termios.veol) || Named(b, p.termios.veol2)) && b != p.termios.veof
    ensures Ends(p, InputByte(p, b), p.cooked + [b])
  {}

  /** The kill character, word erase and reprint, and an ignored carriage return change nothing. */
  lemma IgnoredKeeps(p: Pty, b: byte)
    requires p.termios.icanon
    requires
      var t := p.termios;
      || (b == CR && t.igncr)
      || (&& (Named(b, t.vkill) || (t.iexten && (Named(b, t.vwerase) || Named(b, t.vreprint))))
          && b != t.veof && b != t.veol && b != t.veol2 && b != t.verase)
    ensures Editing(p, InputByte(p, b), p.cooked) && InputByte(p, b).miso == p.miso
  {}

  /** Erasing an empty line does nothing at all. */
  lemma EraseStopsAtStart(p: Pty)
    requires Erasing(p.termios) && p.cooked == []
    ensures InputByte(p, p.termios.verase) == p
  {}

  ghost predicate Keyed(t: Termios, b: byte, s: Signal) {
    match s
    case SIGINT => b == t.vintr
    case SIGQUIT => b == t.vquit && b != t.vintr
    case SIGTSTP => b == t.vsusp && b != t.vintr && b != t.vquit
  }

  /** In either mode a signal character is sent to the foreground group, if any, and does not join the line. */
  lemma SignalSent(p: Pty, b: byte, s: Signal)
    requires p.termios.isig && b != 0 && b != LF && b != CR && Keyed(p.termios, b, s)
    requires
      var t := p.termios;
      t.icanon ==>
        && b != t.veof && b != t.veol && b != t.veol2 && b != t.verase && b != t.vkill
        && (t.iexten ==> b != t.vwerase && b != t.vreprint)
    ensures
      var q := InputByte(p, b);
      q == p.(signals := if p.pgrp != 0 then p.signals + [s] else p.signals)
  {}

  /** An ordinary byte is echoed as one packet if ECHO is set, and not otherwise. */
  lemma EchoesOne(p: Pty, b: byte)
    requires Ordinary(p.termios, b)
    ensures InputByte(p, b).miso == if p.termios.echo then p.miso + [[0, b]] else p.miso
  {
    assert Expand(p.termios, [b]) == [b] + Expand(p.termios, [b][1..]) == [b];
    assert [0] + Expand(p.termios, [b]) == [0, b];
    assert Output(p, [b]).miso == p.miso + [[0, b]];
  }

  /** Enter is echoed, as output has newlines, if ECHO or ECHONL is set. */
  lemma EnterEchoes(p: Pty, b: byte)
    requires p.termios.icanon && Enter(p.termios, b)
    ensures
      var shown := if Expanding(p.termios) then [0, CR, LF] else [0, LF];
      InputByte(p, b).miso == if p.termios.echo || p.termios.echonl then p.miso + [shown] else p.miso
  {
    var shown := if Expanding(p.termios) then [0, CR, LF] else [0, LF];
    assert [LF][1..] == [];
    assert [0] + Expand(p.termios, [LF]) == shown;
    assert Output(p, [LF]).miso == p.miso + [shown];
  }

  /** Erasing blanks out the character on the screen if ECHOE is set. */
  lemma EraseEchoes(p: Pty)
    requires Erasing(p.termios) && p.cooked != []
    ensures InputByte(p, p.termios.verase).miso == if p.termios.echoe then p.miso + [[0, 8, 32, 8]] else p.miso
  {
    var blank: seq<byte> := [8, 32, 8];
    ExpandOthers(p.termios, blank);
    assert [0] + blank == [0, 8, 32, 8];
    assert Output(p, blank).miso == p.miso + [[0, 8, 32, 8]];
  }

  lemma {:induction false} ExpandOthers(t: Termios, buf: seq<byte>)
    requires LF !in buf
    ensures Expand(t, buf) == buf
    decreases buf
  {
    if buf != [] { ExpandOthers(t, buf[1..]); }
  }

  // ---------------------------------------------------------------- the timer

  /** Raw mode with both VMIN and VTIME, and fewer bytes pending than VMIN asks for. */
  ghost predicate Timed(p: Pty) {
    !p.termios.icanon && p.termios.vtime != 0 && p.mosi == [] && |p.cooked| < p.termios.vmin as nat
  }

  /** The clock advances to `now`; nothing is typed meanwhile. */
  function At(p: Pty, now: nat): Pty { Timeout(p, now) }

  lemma TypedRestarts(p: Pty, b: byte)
    requires Ordinary(p.termios, b) && !p.termios.icanon
    ensures
      var q := InputByte(p, b);
      && q.cooked == p.cooked + [b] && q.mosi == p.mosi && q.termios == p.termios
      && q.timeoutCount == p.timeoutCount && q.timeoutCharacter == Some(p.timeoutCount)
  {}

  /**
   A byte typed at one tick restarts the timer: a read at a later tick goes on waiting exactly
   until VTIME ticks have passed, however much was pending before.  Where the sum wraps around at
   64 bits it does not wait at all.
   */
  lemma TimerRuns(p: Pty, b: byte, now: nat, room: nat)
    requires Timed(p) && |p.cooked| + 1 < p.termios.vmin as nat && Ordinary(p.termios, b)
    requires p.timeoutCount <= now
    ensures SlaveRead(At(Input(p, [b]), now), room).1.None? <==> now < (p.timeoutCount + p.termios.vtime as nat) % U64
  {
    TypedRestarts(p, b);
    var q := InputByte(p, b);
    assert InputBytes(p, [b]) == InputBytes(q, [b][1..]);
    assert Input(p, [b]) == Update(q);
  }

  /**
   A tick by itself, with no read, makes a packet of what is pending exactly when the timer started
   by the last byte has run out; before that it leaves line and packets alone.
   */
  lemma TickReleases(p: Pty, b: byte, now: nat)
    requires Timed(p) && |p.cooked| + 1 < p.termios.vmin as nat && Ordinary(p.termios, b)
    requires p.timeoutCount < (p.timeoutCount + p.termios.vtime as nat) % U64 && p.timeoutCount != now
    ensures
      var q := At(Input(p, [b]), now);
      if now >= (p.timeoutCount + p.termios.vtime as nat) % U64
      then q.mosi == p.mosi + [p.cooked + [b]] && q.cooked == []
      else q.mosi == p.mosi && q.cooked == p.cooked + [b]
  {
    TypedRestarts(p, b);
    var q := InputByte(p, b);
    assert InputBytes(p, [b]) == InputBytes(q, [b][1..]);
    assert Input(p, [b]) == Update(q) == q;
  }

  // ---------------------------------------------------------------- output

  /** Takes back one carriage return before each newline. */
  function Contract(s: seq<byte>): seq<byte> {
    if |s| >= 2 && s[0] == CR && s[1] == LF then [LF] + Contract(s[2..])
    else if s == [] then []
    else [s[0]] + Contract(s[1..])
  }

  function Newlines(s: seq<byte>): nat {
    if s == [] then 0 else (if s[0] == LF then 1 else 0) + Newlines(s[1..])
  }

  ghost predicate Expanding(t: Termios) { t.opost && t.onlcr }

  /**
   With OPOST and ONLCR every newline goes out with a carriage return before it and everything
   else as it is: contracting gives the text back, each newline has its carriage return, and the
   text has grown by one byte for each.  Without them nothing changes.
   */
  lemma {:induction false} ExpandExact(t: Termios, buf: seq<byte>)
    ensures !Expanding(t) ==> Expand(t, buf) == buf
    ensures Expanding(t) ==>
              var s := Expand(t, buf);
              && Contract(s) == buf
              && |s| == |buf| + Newlines(buf)
              && forall i | 0 <= i < |s| && s[i] == LF :: i > 0 && s[i - 1] == CR
    decreases buf
  {
    if buf != [] {
      ExpandExact(t, buf[1..]);
      var rest := Expand(t, buf[1..]);
      if Expanding(t) {
        if buf[0] == LF {
          var s := [CR, LF] + rest;
          assert Expand(t, buf) == s && s[2..] == rest;
          forall i | 0 <= i < |s| && s[i] == LF ensures i > 0 && s[i - 1] == CR { if i >= 2 { assert rest[i - 2] == LF; } }
        } else {
          var s := [buf[0]] + rest;
          assert Expand(t, buf) == s && s[1..] == rest;
          if rest != [] && rest[0] == LF { assert false; }
          forall i | 0 <= i < |s| && s[i] == LF ensures i > 0 && s[i - 1] == CR { if i >= 1 { assert rest[i - 1] == LF; } }
        }
      }
    }
  }

  /** What the slave writes arrives as one packet behind a zero byte. */
  lemma OutputAdds(p: Pty, buf: seq<byte>)
    ensures Output(p, buf) == p.(miso := Output(p, buf).miso)
    ensures |Output(p, buf).miso| == |p.miso| + 1 && Output(p, buf).miso[..|p.miso|] == p.miso
    ensures
      var packet := Output(p, buf).miso[|p.miso|];
      packet != [] && packet[0] == 0 && (if Expanding(p.termios) then Contract(packet[1..]) == buf else packet[1..] == buf)
  {
    ExpandExact(p.termios, buf);
    assert ([0] + Expand(p.termios, buf))[1..] == Expand(p.termios, buf);
  }

  /**
   A slave's write is taken whole exactly when fewer than 64 packets wait for the master, and then
   the packet behind them carries it; otherwise it would block and nothing changes.
   */
  lemma WriteAnswers(p: Pty, buf: seq<byte>)
    ensures
      var (q, r) := SlaveWrite(p, buf);
      && (r.Some? <==> |p.miso| < 64)
      && (r.None? ==> q == p)
      && (r.Some? ==>
            && r.value == |buf| && q == p.(miso := q.miso)
            && |q.miso| == |p.miso| + 1 && q.miso[..|p.miso|] == p.miso
            && q.miso[|p.miso|] != [] && q.miso[|p.miso|][0] == 0
            && (if Expanding(p.termios) then Contract(q.miso[|p.miso|][1..]) else q.miso[|p.miso|][1..]) == buf)
  {
    OutputAdds(p, buf);
  }
}
