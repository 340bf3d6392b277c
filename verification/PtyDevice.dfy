/** The pty and its slave end as they are: buffers updated in place, byte by byte. */
module PtyDevice {
  import opened Prelude
  import opened Bytes
  import opened PtyModel

  class Device {
    var pgrp: nat
    var termios: Termios
    var cooked: seq<byte>
    var miso: seq<seq<byte>>
    var mosi: seq<seq<byte>>
    var timeoutCount: nat
    var timeoutCharacter: Option<nat>
    /** Signals sent to the process group. */
    var signals: seq<Signal>

    ghost function Model(): PtyModel.Pty
      reads this
    {
      PtyModel.Pty(pgrp, termios, cooked, miso, mosi, timeoutCount, timeoutCharacter, signals)
    }

    constructor (termios: Termios)
      ensures Model() == PtyModel.Pty(0, termios, [], [], [], 0, None, [])
    {
      this.termios := termios;
      pgrp, cooked, miso, mosi := 0, [], [], [];
      timeoutCount, timeoutCharacter, signals := 0, None, [];
    }

    method Output(buf: seq<byte>)
      modifies this`miso
      ensures Model() == PtyModel.Output(old(Model()), buf)
    {
      var out: seq<byte> := [0];
      for i := 0 to |buf|
        invariant out + Expand(termios, buf[i..]) == [0] + Expand(termios, buf)
      {
        assert buf[i..][0] == buf[i] && buf[i..][1..] == buf[i + 1..];
        var before := out;
        if termios.opost && termios.onlcr && buf[i] == LF { out := out + [CR]; }
        out := out + [buf[i]];
        assert out == before + (if termios.opost && termios.onlcr && buf[i] == LF then [CR, buf[i]] else [buf[i]]);
      }
      assert buf[|buf|..] == [] && out + [] == out;
      miso := miso + [out];
    }

    method CommitLine()
      modifies this`mosi, this`cooked
      ensures Model() == Commit(old(Model()))
    {
      mosi := mosi + [cooked];
      cooked := [];
    }

    method EditLine(byte_: byte) returns (b: byte)
      modifies this
      ensures (Model(), b) == Edit(old(Model()), byte_)
    {
      b := byte_;
      if b == LF {
        if termios.echo || termios.echonl { Output([b]); }
        cooked := cooked + [b];
        CommitLine();
        b := 0;
      }
      if IsCc(b, termios.veof) {
        CommitLine();
        b := 0;
      }
      if IsCc(b, termios.veol) || IsCc(b, termios.veol2) {
        if termios.echo { Output([b]); }
        cooked := cooked + [b];
        CommitLine();
        b := 0;
      }
      if IsCc(b, termios.verase) {
        if cooked != [] {
          cooked := cooked[..|cooked| - 1];
          if termios.echoe { Output([8, 32, 8]); }
        }
        b := 0;
      }
      if IsCc(b, termios.vwerase) && termios.iexten { b := 0; }
      if IsCc(b, termios.vkill) { b := 0; }
      if IsCc(b, termios.vreprint) && termios.iexten { b := 0; }
    }

    method Raise(byte_: byte) returns (b: byte)
      modifies this`signals
      ensures (Model(), b) == Signals(old(Model()), byte_)
    {
      b := byte_;
      if IsCc(b, termios.vintr) {
        if pgrp != 0 { signals := signals + [SIGINT]; }
        b := 0;
      }
      if IsCc(b, termios.vquit) {
        if pgrp != 0 { signals := signals + [SIGQUIT]; }
        b := 0;
      }
      if IsCc(b, termios.vsusp) {
        if pgrp != 0 { signals := signals + [SIGTSTP]; }
        b := 0;
      }
    }

    /** Echoes an ordinary byte, restarts the timer and adds it to the line. */
    method AcceptByte(b: byte)
      modifies this
      ensures Model() == Accept(old(Model()), b)
    {
      if b != 0 {
        if termios.echo { Output([b]); }
        timeoutCharacter := Some(timeoutCount);
        cooked := cooked + [b];
      }
    }

    method Filter(byte_: byte) returns (b: byte)
      ensures b == Vanish(termios, byte_)
    {
      b := byte_;
      if termios.ixon {
        if IsCc(b, termios.vstart) { b := 0; }
        if IsCc(b, termios.vstop) { b := 0; }
      }
      if IsCc(b, termios.vlnext) && termios.iexten { b := 0; }
      if IsCc(b, termios.vdiscard) && termios.iexten { b := 0; }
    }

    method TranslateByte(byte_: byte) returns (b: byte)
      ensures b == Translate(termios, byte_)
    {
      b := byte_;
      if b == LF {
        if termios.inlcr { b := CR; }
      } else if b == CR {
        if termios.igncr { b := 0; } else if termios.icrnl { b := LF; }
      }
    }

    /** One turn of the input loop. */
    method Feed(byte_: byte)
      modifies this
      ensures Model() == InputByte(old(Model()), byte_)
    {
      var b := TranslateByte(byte_);
      if termios.icanon { b := EditLine(b); }
      if termios.isig { b := Raise(b); }
      b := Filter(b);
      AcceptByte(b);
    }

    method Update()
      modifies this
      ensures Model() == PtyModel.Update(old(Model()))
    {
      if termios.icanon { return; }
      var vmin := termios.vmin as nat;
      if termios.vtime == 0 {
        if vmin == 0 {
          if mosi == [] { CommitLine(); }
        } else {
          if |cooked| >= vmin { CommitLine(); }
        }
      } else if vmin == 0 {
        if cooked != [] {
          CommitLine();
        } else if timeoutCharacter.Some? {
          if timeoutCount >= (timeoutCharacter.value + termios.vtime as nat) % U64 {
            timeoutCharacter := None;
            if mosi == [] { CommitLine(); }
          }
        } else {
          timeoutCharacter := Some(timeoutCount);
        }
      } else if |cooked| >= vmin {
        CommitLine();
      } else if cooked != [] && timeoutCharacter.Some? {
        if timeoutCount >= (timeoutCharacter.value + termios.vtime as nat) % U64 {
          timeoutCharacter := None;
          CommitLine();
        }
      }
    }

    method Input(buf: seq<byte>)
      modifies this
      ensures Model() == PtyModel.Input(old(Model()), buf)
    {
      for i := 0 to |buf|
        invariant InputBytes(Model(), buf[i..]) == InputBytes(old(Model()), buf)
      {
        assert buf[i..][0] == buf[i] && buf[i..][1..] == buf[i + 1..];
        Feed(buf[i]);
      }
      assert buf[|buf|..] == [];
      Update();
    }

    method Timeout(count: nat)
      modifies this
      ensures Model() == PtyModel.Timeout(old(Model()), count)
    {
      if timeoutCount != count {
        timeoutCount := count;
        Update();
      }
    }

    /** Copies as much of a packet as the buffer takes. */
    method CopyOut(packet: seq<byte>, buf: array<byte>) returns (i: nat)
      modifies buf
      ensures i == Min(buf.Length, |packet|) && buf[..] == Splice(old(buf[..]), 0, packet[..i])
    {
      i := 0;
      while i < buf.Length && i < |packet|
        invariant i <= buf.Length && i <= |packet|
        invariant forall k | 0 <= k < buf.Length :: buf[k] == if k < i then packet[k] else old(buf[k])
      {
        buf[i] := packet[i];
        i := i + 1;
      }
    }

    /** The slave's read: a packet's first bytes, the rest of which goes back to the front. */
    method Read(buf: array<byte>) returns (r: Option<nat>)
      modifies this, buf
      ensures
        var (p, out) := SlaveRead(old(Model()), buf.Length);
        && Model() == p
        && (out.None? ==> r.None? && buf[..] == old(buf[..]))
        && (out.Some? ==> |out.value| <= buf.Length && r == Some(|out.value|) && buf[..] == Splice(old(buf[..]), 0, out.value))
    {
      Update();
      if mosi == [] { return None; }
      var packet := mosi[0];
      mosi := mosi[1..];
      var i := CopyOut(packet, buf);
      if i < |packet| { mosi := [packet[i..]] + mosi; }
      r := Some(i);
    }

    /** The slave's write, refused while 64 packets wait for the master. */
    method Write(buf: seq<byte>) returns (r: Option<nat>)
      modifies this
      ensures (Model(), r) == SlaveWrite(old(Model()), buf)
    {
      if |miso| >= 64 { return None; }
      Output(buf);
      r := Some(|buf|);
    }
  }
}
