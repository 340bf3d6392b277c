/**
 The byte format in which a socket message travels: the payload's length and bytes, then control
 messages, each with a header of level, type and data length.
 */
module Framing {
  import opened Prelude
  import opened Results
  import opened Bytes

  datatype Errno = EINVAL | EOPNOTSUPP
  type Parsed<+T> = Result<T, Errno>

  const SOL_SOCKET := 1
  const SCM_RIGHTS := 1
  const SCM_CREDENTIALS := 2

  /** Level and type of a control message are 32-bit signed numbers. */
  newtype int32 = v: int | -0x8000_0000 <= v < 0x8000_0000

  datatype Cmsg = Cmsg(level: int32, kind: int32, data: seq<byte>)
  datatype Credential = Credential(pid: int32, uid: int32, gid: int32)
  datatype Message = Message(payload: seq<byte>, numFds: nat)

  // ---------------------------------------------------------------- numbers

  function Unsigned(v: int32): nat { if v < 0 then v as int + U32 else v as int }
  function Signed(n: nat): int32
    requires n < U32
  {
    (if n >= 0x8000_0000 then n - U32 else n) as int32
  }

  function LeI32(v: int32): (s: seq<byte>)
    ensures |s| == 4
  {
    Le(Unsigned(v), 4)
  }

  function ReadI32(s: seq<byte>): (v: int32)
    requires |s| >= 4
  {
    LeOfUnLe(s[..4]);
    Ranges();
    Signed(UnLe(s[..4]))
  }

  function ReadUsize(s: seq<byte>): Option<nat> {
    if |s| < 8 then None else Some(UnLe(s[..8]))
  }

  lemma I32RoundTrip(v: int32, rest: seq<byte>)
    ensures ReadI32(LeI32(v) + rest) == v
  {
    Ranges();
    UnLeOfLe(Unsigned(v), 4);
    assert (LeI32(v) + rest)[..4] == LeI32(v);
  }

  lemma UsizeRoundTrip(n: nat, rest: seq<byte>)
    requires n < U64
    ensures ReadUsize(Le(n, 8) + rest) == Some(n)
  {
    Ranges();
    UnLeOfLe(n, 8);
    assert (Le(n, 8) + rest)[..8] == Le(n, 8);
  }

  // ---------------------------------------------------------------- the format

  const HEADER := 16

  function CmsgBytes(c: Cmsg): (s: seq<byte>)
    ensures |s| == HEADER + |c.data|
  {
    LeI32(c.level) + LeI32(c.kind) + Le(|c.data|, 8) + c.data
  }

  function CmsgsBytes(cs: seq<Cmsg>): seq<byte> {
    if cs == [] then [] else CmsgBytes(cs[0]) + CmsgsBytes(cs[1..])
  }

  function MessageBytes(payload: seq<byte>, cs: seq<Cmsg>): seq<byte> {
    Le(|payload|, 8) + payload + CmsgsBytes(cs)
  }

  /** Lengths fit the machine word. */
  ghost predicate Fits(cs: seq<Cmsg>) {
    forall i | 0 <= i < |cs| :: |cs[i].data| < U64
  }

  /** How many descriptors a control message announces. */
  function FdsOf(c: Cmsg): Parsed<nat> {
    if c.level as int == SOL_SOCKET && c.kind as int == SCM_RIGHTS then
      if ReadUsize(c.data).Some? then Ok(ReadUsize(c.data).value) else Err(EINVAL)
    else if c.level as int == SOL_SOCKET && c.kind as int == SCM_CREDENTIALS then Ok(0)
    else Err(EOPNOTSUPP)
  }

  /** The sum over all control messages, or the first error among them. */
  function TotalFds(cs: seq<Cmsg>, sum: nat): Parsed<nat>
    decreases cs
  {
    if cs == [] then Ok(sum)
    else match FdsOf(cs[0])
      case Ok(n) => TotalFds(cs[1..], sum + n)
      case Err(e) => Err(e)
  }

  function Meaning(payload: seq<byte>, cs: seq<Cmsg>): Parsed<Message> {
    WithPayload(payload, TotalFds(cs, 0))
  }

  /** The count is a machine word and wraps around. */
  function WithPayload(payload: seq<byte>, fds: Parsed<nat>): Parsed<Message> {
    match fds
    case Ok(n) => Ok(Message(payload, n % U64))
    case Err(e) => Err(e)
  }

  // ---------------------------------------------------------------- the parser

  /** The first control message of `s`; None where fewer bytes than a header are left. */
  function FirstCmsg(s: seq<byte>): Option<Parsed<Cmsg>> {
    if |s| < HEADER then None
    else
      var len := UnLe(s[8..16]);
      if HEADER + len > |s| then Some(Err(EINVAL))
      else Some(Ok(Cmsg(ReadI32(s), ReadI32(s[4..]), s[HEADER..HEADER + len])))
  }

  function ParseCmsgs(s: seq<byte>, sum: nat): Parsed<nat>
    decreases |s|
  {
    match FirstCmsg(s)
    case None => Ok(sum)
    case Some(Err(e)) => Err(e)
    case Some(Ok(c)) =>
      match FdsOf(c)
      case Err(e) => Err(e)
      case Ok(n) => ParseCmsgs(s[HEADER + |c.data|..], sum + n)
  }

  function Parse(stream: seq<byte>): Parsed<Message> {
    match ReadUsize(stream)
    case None => Err(EINVAL)
    case Some(len) =>
      if 8 + len > |stream| then Err(EINVAL)
      else WithPayload(stream[8..8 + len], ParseCmsgs(stream[8 + len..], 0))
  }

  // ---------------------------------------------------------------- parsing undoes the format

  lemma FirstOfBytes(c: Cmsg, rest: seq<byte>)
    requires |c.data| < U64
    ensures FirstCmsg(CmsgBytes(c) + rest) == Some(Ok(c))
    ensures (CmsgBytes(c) + rest)[HEADER + |c.data|..] == rest
  {
    var s := CmsgBytes(c) + rest;
    var afterLevel := LeI32(c.kind) + (Le(|c.data|, 8) + (c.data + rest));
    assert s == LeI32(c.level) + afterLevel;
    I32RoundTrip(c.level, afterLevel);
    assert s[4..] == LeI32(c.kind) + (Le(|c.data|, 8) + (c.data + rest));
    I32RoundTrip(c.kind, Le(|c.data|, 8) + (c.data + rest));
    assert s[8..16] == Le(|c.data|, 8);
    Ranges();
    UnLeOfLe(|c.data|, 8);
    assert s[HEADER..HEADER + |c.data|] == c.data;
  }

  lemma CmsgsSplit(cs: seq<Cmsg>, tail: seq<byte>)
    requires cs != []
    ensures CmsgsBytes(cs) + tail == CmsgBytes(cs[0]) + (CmsgsBytes(cs[1..]) + tail)
  {}

  lemma ParseStep(c: Cmsg, rest: seq<byte>, sum: nat)
    requires |c.data| < U64
    ensures ParseCmsgs(CmsgBytes(c) + rest, sum) ==
            if FdsOf(c).Ok? then ParseCmsgs(rest, sum + FdsOf(c).value) else Err(FdsOf(c).errno)
  {
    FirstOfBytes(c, rest);
  }

  lemma ShortTail(tail: seq<byte>, sum: nat)
    requires |tail| < HEADER
    ensures ParseCmsgs(CmsgsBytes([]) + tail, sum) == Ok(sum)
  {
    assert CmsgsBytes([]) + tail == tail;
  }

  lemma {:induction false} CmsgsRoundTrip(cs: seq<Cmsg>, tail: seq<byte>, sum: nat)
    requires Fits(cs) && |tail| < HEADER
    ensures ParseCmsgs(CmsgsBytes(cs) + tail, sum) == TotalFds(cs, sum)
    decreases cs
  {
    if cs == [] {
      ShortTail(tail, sum);
    } else {
      ParseStep(cs[0], CmsgsBytes(cs[1..]) + tail, sum);
      CmsgsSplit(cs, tail);
      if FdsOf(cs[0]).Ok? { CmsgsRoundTrip(cs[1..], tail, sum + FdsOf(cs[0]).value); }
    }
  }

  lemma PayloadRoundTrip(payload: seq<byte>, control: seq<byte>)
    requires |payload| < U64
    ensures Parse(Le(|payload|, 8) + payload + control) == WithPayload(payload, ParseCmsgs(control, 0))
  {
    var s := Le(|payload|, 8) + payload + control;
    assert s == Le(|payload|, 8) + (payload + control);
    UsizeRoundTrip(|payload|, payload + control);
    assert s[8..8 + |payload|] == payload;
    assert s[8 + |payload|..] == control;
  }

  /** Whatever was framed is parsed back, up to fifteen stray bytes at the end. */
  lemma MessageRoundTrip(payload: seq<byte>, cs: seq<Cmsg>, tail: seq<byte>)
    requires |payload| < U64 && Fits(cs) && |tail| < HEADER
    ensures Parse(MessageBytes(payload, cs) + tail) == Meaning(payload, cs)
  {
    PayloadRoundTrip(payload, CmsgsBytes(cs) + tail);
    assert MessageBytes(payload, cs) + tail == Le(|payload|, 8) + payload + (CmsgsBytes(cs) + tail);
    CmsgsRoundTrip(cs, tail, 0);
  }

  // ---------------------------------------------------------------- the answers, message by message

  ghost predicate IsRights(c: Cmsg) { c.level == 1 && c.kind == 1 }
  ghost predicate IsCredentials(c: Cmsg) { c.level == 1 && c.kind == 2 }

  /** Credentials of any size, and rights that carry a whole count. */
  ghost predicate Sound(c: Cmsg) { IsCredentials(c) || (IsRights(c) && |c.data| >= 8) }

  /** The first `k` messages are sound and the one behind them, if any, is not. */
  ghost predicate SoundUpTo(cs: seq<Cmsg>, k: nat) {
    k <= |cs| && (forall i | 0 <= i < k :: Sound(cs[i])) && (k < |cs| ==> !Sound(cs[k]))
  }

  /** The counts that the rights among the messages carry. */
  ghost function Announced(cs: seq<Cmsg>): nat {
    if cs == [] then 0
    else (if IsRights(cs[0]) && |cs[0].data| >= 8 then UnLe(cs[0].data[..8]) else 0) + Announced(cs[1..])
  }

  lemma {:induction false} TotalAnswers(cs: seq<Cmsg>, sum: nat, k: nat)
    requires SoundUpTo(cs, k)
    ensures TotalFds(cs, sum) ==
              if k == |cs| then Ok(sum + Announced(cs)) else Err(if IsRights(cs[k]) then EINVAL else EOPNOTSUPP)
    decreases k
  {
    if k > 0 {
      assert Sound(cs[0]);
      TotalAnswers(cs[1..], sum + FdsOf(cs[0]).value, k - 1);
    }
  }

  ghost function Answer(payload: seq<byte>, cs: seq<Cmsg>, k: nat): Parsed<Message> {
    if k >= |cs| then Ok(Message(payload, Announced(cs) % U64))
    else Err(if IsRights(cs[k]) then EINVAL else EOPNOTSUPP)
  }

  lemma MeaningAnswers(payload: seq<byte>, cs: seq<Cmsg>, k: nat)
    requires SoundUpTo(cs, k)
    ensures Meaning(payload, cs) == Answer(payload, cs, k)
  {
    TotalAnswers(cs, 0, k);
  }

  /**
   What the parser answers, read off the messages: with all of them sound, the payload and the sum
   of the counts, a machine word; otherwise an error that the first unsound one decides.
   */
  lemma ParseAnswers(payload: seq<byte>, cs: seq<Cmsg>, tail: seq<byte>, k: nat)
    requires |payload| < U64 && Fits(cs) && |tail| < HEADER && SoundUpTo(cs, k)
    ensures Parse(MessageBytes(payload, cs) + tail) == Answer(payload, cs, k)
  {
    MessageRoundTrip(payload, cs, tail);
    MeaningAnswers(payload, cs, k);
  }

  // ---------------------------------------------------------------- and only framed messages parse

  lemma FirstIsFramed(s: seq<byte>)
    requires FirstCmsg(s).Some? && FirstCmsg(s).value.Ok?
    ensures
      var c := FirstCmsg(s).value.value;
      |c.data| < U64 && HEADER + |c.data| <= |s| && s == CmsgBytes(c) + s[HEADER + |c.data|..]
  {
    var c := FirstCmsg(s).value.value;
    Ranges();
    LeOfUnLe(s[..4]);
    LeOfUnLe(s[4..][..4]);
    LeOfUnLe(s[8..16]);
    assert s[4..][..4] == s[4..8];
    assert s == s[..4] + s[4..8] + s[8..16] + s[16..16 + |c.data|] + s[16 + |c.data|..];
  }

  lemma FirstThenRest(c: Cmsg, rest: seq<Cmsg>, tail: seq<byte>)
    ensures CmsgsBytes([c] + rest) + tail == CmsgBytes(c) + (CmsgsBytes(rest) + tail)
    ensures forall sum: nat :: TotalFds([c] + rest, sum) ==
              if FdsOf(c).Ok? then TotalFds(rest, sum + FdsOf(c).value) else Err(FdsOf(c).errno)
  {
    assert ([c] + rest)[1..] == rest;
  }

  lemma {:induction false} ParsedCmsgsFramed(s: seq<byte>, sum: nat) returns (cs: seq<Cmsg>, tail: seq<byte>)
    requires ParseCmsgs(s, sum).Ok?
    ensures s == CmsgsBytes(cs) + tail && Fits(cs) && |tail| < HEADER
    ensures TotalFds(cs, sum) == ParseCmsgs(s, sum)
    decreases |s|
  {
    if FirstCmsg(s).None? {
      cs, tail := [], s;
    } else {
      var c := FirstCmsg(s).value.value;
      FirstIsFramed(s);
      var rest;
      rest, tail := ParsedCmsgsFramed(s[HEADER + |c.data|..], sum + FdsOf(c).value);
      cs := [c] + rest;
      FirstThenRest(c, rest, tail);
    }
  }

  lemma Thirds(s: seq<byte>, i: nat, j: nat)
    requires i <= j <= |s|
    ensures s == s[..i] + s[i..j] + s[j..]
  {}

  lemma Regroup(a: seq<byte>, b: seq<byte>, c: seq<byte>, d: seq<byte>)
    ensures a + b + (c + d) == a + b + c + d
  {}

  /** Every stream the parser accepts is a framed message with a short tail, and means what was framed. */
  lemma ParsedIsFramed(stream: seq<byte>) returns (cs: seq<Cmsg>, tail: seq<byte>)
    requires Parse(stream).Ok?
    ensures Fits(cs) && |tail| < HEADER
    ensures stream == MessageBytes(Parse(stream).value.payload, cs) + tail
    ensures Meaning(Parse(stream).value.payload, cs) == Parse(stream)
  {
    var len := ReadUsize(stream).value;
    Ranges();
    LeOfUnLe(stream[..8]);
    cs, tail := ParsedCmsgsFramed(stream[8 + len..], 0);
    Thirds(stream, 8, 8 + len);
    Regroup(Le(len, 8), stream[8..8 + len], CmsgsBytes(cs), tail);
  }

  // ---------------------------------------------------------------- what the writer frames

  function RightsCmsg(n: nat): Cmsg { Cmsg(1, 1, Le(n, 8)) }
  function CredentialCmsg(c: Credential): Cmsg { Cmsg(1, 2, LeI32(c.pid) + LeI32(c.uid) + LeI32(c.gid)) }

  function CredentialCmsgs(creds: seq<Credential>): seq<Cmsg> {
    if creds == [] then [] else [CredentialCmsg(creds[0])] + CredentialCmsgs(creds[1..])
  }

  /** Descriptors first, and only if there are any; then the credentials. */
  function Control(numFds: nat, creds: seq<Credential>): seq<Cmsg> {
    (if numFds == 0 then [] else [RightsCmsg(numFds)]) + CredentialCmsgs(creds)
  }

  lemma {:induction false} CredentialsCarryNoFds(creds: seq<Credential>, sum: nat)
    requires sum < U64
    ensures Fits(CredentialCmsgs(creds)) && TotalFds(CredentialCmsgs(creds), sum) == Ok(sum)
    decreases creds
  {
    if creds != [] {
      CredentialsCarryNoFds(creds[1..], sum);
      assert CredentialCmsgs(creds)[1..] == CredentialCmsgs(creds[1..]);
    }
  }

  lemma RightsMean(numFds: nat)
    requires numFds < U64
    ensures FdsOf(RightsCmsg(numFds)) == Ok(numFds)
  {
    UsizeRoundTrip(numFds, []);
    assert Le(numFds, 8) + [] == Le(numFds, 8);
  }

  lemma RightsFirst(numFds: nat, rest: seq<Cmsg>, sum: nat)
    requires numFds < U64 && sum == 0
    ensures TotalFds([RightsCmsg(numFds)] + rest, sum) == TotalFds(rest, numFds)
  {
    RightsMean(numFds);
    FirstThenRest(RightsCmsg(numFds), rest, []);
    assert sum + numFds == numFds;
  }

  lemma ControlMeans(numFds: nat, creds: seq<Credential>, sum: nat)
    requires numFds < U64 && sum == 0
    ensures Fits(Control(numFds, creds)) && TotalFds(Control(numFds, creds), sum) == Ok(numFds)
  {
    CredentialsCarryNoFds(creds, numFds);
    if numFds == 0 {
      assert [] + CredentialCmsgs(creds) == CredentialCmsgs(creds);
    } else {
      RightsFirst(numFds, CredentialCmsgs(creds), sum);
      assert |RightsCmsg(numFds).data| == 8;
    }
  }

  lemma ControlMeaning(payload: seq<byte>, numFds: nat, creds: seq<Credential>)
    requires numFds < U64
    ensures Fits(Control(numFds, creds)) && Meaning(payload, Control(numFds, creds)) == Ok(Message(payload, numFds))
  {
    ControlMeans(numFds, creds, 0);
  }

  lemma WholeStream(payload: seq<byte>, cs: seq<Cmsg>)
    requires |payload| < U64 && Fits(cs)
    ensures Parse(MessageBytes(payload, cs)) == Meaning(payload, cs)
  {
    MessageRoundTrip(payload, cs, []);
    assert MessageBytes(payload, cs) + [] == MessageBytes(payload, cs);
  }

  /** Payload and descriptor count survive the trip, whatever credentials travel along. */
  lemma FramingRoundTrip(payload: seq<byte>, numFds: nat, creds: seq<Credential>)
    requires |payload| < U64 && numFds < U64
    ensures Parse(MessageBytes(payload, Control(numFds, creds))) == Ok(Message(payload, numFds))
  {
    ControlMeaning(payload, numFds, creds);
    WholeStream(payload, Control(numFds, creds));
  }

  // ---------------------------------------------------------------- truncated control messages

  function Ones(k: nat): (s: seq<byte>)
    ensures |s| == k
  {
    seq(k, _ => 1 as byte)
  }

  lemma OnesLength(s: seq<byte>)
    requires |s| == 8 && forall i | 0 <= i < 8 :: s[i] == 1
    ensures UnLe(s) == 0x0101_0101_0101_0101
  {
    assert s == [1, 1, 1, 1, 1, 1, 1, 1];
    assert UnLe(s[7..]) == 1;
    assert UnLe(s[6..]) == 1 + 256 * UnLe(s[6..][1..]) && s[6..][1..] == s[7..];
    assert UnLe(s[5..]) == 1 + 256 * UnLe(s[5..][1..]) && s[5..][1..] == s[6..];
    assert UnLe(s[4..]) == 1 + 256 * UnLe(s[4..][1..]) && s[4..][1..] == s[5..];
    assert UnLe(s[3..]) == 1 + 256 * UnLe(s[3..][1..]) && s[3..][1..] == s[4..];
    assert UnLe(s[2..]) == 1 + 256 * UnLe(s[2..][1..]) && s[2..][1..] == s[3..];
    assert UnLe(s[1..]) == 1 + 256 * UnLe(s[1..][1..]) && s[1..][1..] == s[2..];
  }

  lemma OnesRefused(k: nat)
    requires HEADER <= k < 0x100_0000_0000_0000
    ensures FirstCmsg(Ones(k)) == Some(Err(EINVAL))
  {
    OnesLength(Ones(k)[8..16]);
  }

  lemma {:induction false} RefusedTail(cs: seq<Cmsg>, tail: seq<byte>, sum: nat)
    requires Fits(cs) && FirstCmsg(tail) == Some(Err(EINVAL)) && TotalFds(cs, sum).Ok?
    ensures ParseCmsgs(CmsgsBytes(cs) + tail, sum) == Err(EINVAL)
    decreases cs
  {
    if cs == [] {
      assert [] + tail == tail;
    } else {
      var rest := CmsgsBytes(cs[1..]) + tail;
      CmsgsSplit(cs, tail);
      ParseStep(cs[0], rest, sum);
      RefusedTail(cs[1..], tail, sum + FdsOf(cs[0]).value);
    }
  }

  /**
   The filling that stands for a control message that did not fit is refused where it is at
   least a header long, and passed over where it is shorter.
   */
  lemma TruncationNoticed(payload: seq<byte>, cs: seq<Cmsg>, k: nat)
    requires |payload| < U64 && Fits(cs) && k < 0x100_0000_0000_0000 && TotalFds(cs, 0).Ok?
    ensures Parse(MessageBytes(payload, cs) + Ones(k)) == if k < HEADER then Meaning(payload, cs) else Err(EINVAL)
  {
    if k < HEADER {
      MessageRoundTrip(payload, cs, Ones(k));
    } else {
      PayloadRoundTrip(payload, CmsgsBytes(cs) + Ones(k));
      assert MessageBytes(payload, cs) + Ones(k) == Le(|payload|, 8) + payload + (CmsgsBytes(cs) + Ones(k));
      OnesRefused(k);
      RefusedTail(cs, Ones(k), 0);
    }
  }
}
