/** The pty line discipline: input translation, line editing and the VMIN/VTIME packetiser. */
module PtyModel {
  import opened Prelude
  import opened Bytes

  const LF: byte := 10
  const CR: byte := 13

  datatype Termios = Termios(
    inlcr: bool, igncr: bool, icrnl: bool,
    opost: bool, onlcr: bool,
    echo: bool, echoe: bool, echonl: bool, icanon: bool, isig: bool, iexten: bool, ixon: bool,
    veof: byte, veol: byte, veol2: byte, verase: byte, vwerase: byte, vkill: byte, vreprint: byte,
    vintr: byte, vquit: byte, vsusp: byte, vstart: byte, vstop: byte, vlnext: byte, vdiscard: byte,
    vmin: byte, vtime: byte)

  datatype Signal = SIGINT | SIGQUIT | SIGTSTP

  /** `mosi` goes to the slave, `miso` to the master; `signals` are those sent to the group. */
  datatype Pty = Pty(
    pgrp: nat,
    termios: Termios,
    cooked: seq<byte>,
    miso: seq<seq<byte>>,
    mosi: seq<seq<byte>>,
    timeoutCount: nat,
    timeoutCharacter: Option<nat>,
    signals: seq<Signal>)

  predicate IsCc(b: byte, cc: byte) { b != 0 && b == cc }

  // ---------------------------------------------------------------- output

  function Expand(t: Termios, buf: seq<byte>): seq<byte> {
    if buf == [] then []
    else (if t.opost && t.onlcr && buf[0] == LF then [CR, buf[0]] else [buf[0]]) + Expand(t, buf[1..])
  }

  function Output(p: Pty, buf: seq<byte>): Pty {
    p.(miso := p.miso + [[0] + Expand(p.termios, buf)])
  }

  // ---------------------------------------------------------------- input

  /** Newline and carriage return as the input flags have them; zero means dropped. */
  function Translate(t: Termios, b: byte): byte {
    if b == LF then if t.inlcr then CR else LF
    else if b == CR then if t.igncr then 0 else if t.icrnl then LF else CR
    else b
  }

  /** Ends the line: what has been edited becomes a packet. */
  function Commit(p: Pty): Pty { p.(mosi := p.mosi + [p.cooked], cooked := []) }

  function Push(p: Pty, b: byte): Pty { p.(cooked := p.cooked + [b]) }

  function EchoIf(p: Pty, on: bool, buf: seq<byte>): Pty { if on then Output(p, buf) else p }

  /** Canonical mode's own characters; what is left of the byte comes back. */
  function Edit(p: Pty, b: byte): (Pty, byte) {
    var t := p.termios;
    if b == LF then (Commit(Push(EchoIf(p, t.echo || t.echonl, [b]), b)), 0)
    else if IsCc(b, t.veof) then (Commit(p), 0)
    else if IsCc(b, t.veol) || IsCc(b, t.veol2) then (Commit(Push(EchoIf(p, t.echo, [b]), b)), 0)
    else if IsCc(b, t.verase) then
      (if p.cooked == [] then p else EchoIf(p.(cooked := p.cooked[..|p.cooked| - 1]), t.echoe, [8, 32, 8]), 0)
    else if (IsCc(b, t.vwerase) && t.iexten) || IsCc(b, t.vkill) || (IsCc(b, t.vreprint) && t.iexten) then (p, 0)
    else (p, b)
  }

  function Send(p: Pty, s: Signal): Pty { if p.pgrp != 0 then p.(signals := p.signals + [s]) else p }

  function Signals(p: Pty, b: byte): (Pty, byte) {
    if IsCc(b, p.termios.vintr) then (Send(p, SIGINT), 0)
    else if IsCc(b, p.termios.vquit) then (Send(p, SIGQUIT), 0)
    else if IsCc(b, p.termios.vsusp) then (Send(p, SIGTSTP), 0)
    else (p, b)
  }

  /** Flow control, literal-next and discard characters vanish. */
  function Vanish(t: Termios, b: byte): byte {
    if t.ixon && (IsCc(b, t.vstart) || IsCc(b, t.vstop)) then 0
    else if t.iexten && (IsCc(b, t.vlnext) || IsCc(b, t.vdiscard)) then 0
    else b
  }

  /** An ordinary byte is echoed, restarts the timer and joins the line. */
  function Accept(p: Pty, b: byte): Pty {
    if b == 0 then p
    else Push(EchoIf(p, p.termios.echo, [b]).(timeoutCharacter := Some(p.timeoutCount)), b)
  }

  function InputByte(p: Pty, byte_: byte): Pty {
    var b0 := Translate(p.termios, byte_);
    var (p1, b1) := if p.termios.icanon then Edit(p, b0) else (p, b0);
    var (p2, b2) := if p.termios.isig then Signals(p1, b1) else (p1, b1);
    Accept(p2, Vanish(p2.termios, b2))
  }

  function InputBytes(p: Pty, buf: seq<byte>): Pty
    decreases buf
  {
    if buf == [] then p else InputBytes(InputByte(p, buf[0]), buf[1..])
  }

  function Input(p: Pty, buf: seq<byte>): Pty { Update(InputBytes(p, buf)) }

  // ---------------------------------------------------------------- the packetiser

  /** The inter-byte timer has run out; the sum wraps around at 64 bits. */
  predicate Expired(p: Pty) {
    p.timeoutCharacter.Some? && p.timeoutCount >= (p.timeoutCharacter.value + p.termios.vtime as nat) % U64
  }

  function Update(p: Pty): Pty {
    var vmin, vtime := p.termios.vmin as nat, p.termios.vtime;
    if p.termios.icanon then p
    else if vtime == 0 then
      if vmin == 0 then if p.mosi == [] then Commit(p) else p
      else if |p.cooked| >= vmin then Commit(p) else p
    else if vmin == 0 then
      if p.cooked != [] then Commit(p)
      else if p.timeoutCharacter.None? then p.(timeoutCharacter := Some(p.timeoutCount))
      else if Expired(p) then
        var q := p.(timeoutCharacter := None);
        if q.mosi == [] then Commit(q) else q
      else p
    else if |p.cooked| >= vmin then Commit(p)
    else if p.cooked != [] && Expired(p) then Commit(p.(timeoutCharacter := None))
    else p
  }

  function Timeout(p: Pty, count: nat): Pty {
    if p.timeoutCount != count then Update(p.(timeoutCount := count)) else p
  }

  // ---------------------------------------------------------------- the slave

  /** What a read into `room` bytes delivers, None where it would block. */
  function SlaveRead(p: Pty, room: nat): (Pty, Option<seq<byte>>) {
    var q := Update(p);
    if q.mosi == [] then (q, None)
    else
      var packet, rest := q.mosi[0], q.mosi[1..];
      var k := Min(room, |packet|);
      (q.(mosi := if k < |packet| then [packet[k..]] + rest else rest), Some(packet[..k]))
  }

  /** What a write has taken, None where it would block. */
  function SlaveWrite(p: Pty, buf: seq<byte>): (Pty, Option<nat>) {
    if |p.miso| >= 64 then (p, None) else (Output(p, buf), Some(|buf|))
  }
}
