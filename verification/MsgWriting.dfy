/** Reading and writing framed messages in place: a cursor over a stream, a writer over a buffer. */
module MsgWriting {
  import opened Prelude
  import opened Results
  import opened Bytes
  import opened Framing

  // ---------------------------------------------------------------- reading

  /** The control message at the cursor. */
  method ReadCmsg(stream: seq<byte>, cursor: nat) returns (r: Option<Parsed<Cmsg>>)
    requires cursor <= |stream|
    ensures r == FirstCmsg(stream[cursor..])
  {
    if cursor + HEADER > |stream| { return None; }
    var s := stream[cursor..];
    var level, kind, dataLen := ReadI32(s), ReadI32(s[4..]), UnLe(s[8..16]);
    var start := cursor + HEADER;
    if start + dataLen > |stream| { return Some(Err(EINVAL)); }
    assert stream[start..start + dataLen] == s[HEADER..HEADER + dataLen];
    r := Some(Ok(Cmsg(level, kind, stream[start..start + dataLen])));
  }

  /** The loop always ends: every turn moves the cursor past a header. */
  method FromStream(stream: seq<byte>) returns (r: Parsed<Message>)
    ensures r == Parse(stream)
  {
    if |stream| < 8 { return Err(EINVAL); }
    var len := UnLe(stream[..8]);
    var cursor := 8;
    if cursor + len > |stream| { return Err(EINVAL); }
    var payload := stream[cursor..cursor + len];
    cursor := cursor + len;
    var numFds := CountFds(stream, cursor);
    if numFds.Err? { return Err(numFds.errno); }
    r := Ok(Message(payload, numFds.value));
  }

  /** The control-message loop, with the count wrapping as it is added up. */
  method CountFds(stream: seq<byte>, from: nat) returns (r: Parsed<nat>)
    requires from <= |stream|
    ensures
      r == match ParseCmsgs(stream[from..], 0)
           case Ok(n) => Ok(n % U64)
           case Err(e) => Err(e)
  {
    var cursor, numFds: nat := from, 0;
    ghost var sum: nat := 0;
    while true
      invariant from <= cursor <= |stream|
      invariant ParseCmsgs(stream[cursor..], sum) == ParseCmsgs(stream[from..], 0) && numFds == sum % U64
      decreases |stream| - cursor
    {
      var next := ReadCmsg(stream, cursor);
      match next {
        case None => return Ok(numFds);
        case Some(Err(e)) => return Err(e);
        case Some(Ok(c)) =>
          var fds := FdsOf(c);
          if fds.Err? { return Err(fds.errno); }
          WrapStep(sum, fds.value);
          CmsgStep(stream, cursor, c, sum);
          numFds := (numFds + fds.value) % U64;
          sum := sum + fds.value;
          cursor := cursor + HEADER + |c.data|;
      }
    }
  }

  /** Past a control message the parse goes on with its descriptors added. */
  lemma CmsgStep(stream: seq<byte>, cursor: nat, c: Cmsg, sum: nat)
    requires cursor <= |stream| && FirstCmsg(stream[cursor..]) == Some(Ok(c)) && FdsOf(c).Ok?
    ensures
      var next := cursor + HEADER + |c.data|;
      next <= |stream| && ParseCmsgs(stream[cursor..], sum) == ParseCmsgs(stream[next..], sum + FdsOf(c).value)
  {
    assert stream[cursor..][HEADER + |c.data|..] == stream[cursor + HEADER + |c.data|..];
  }

  lemma WrapStep(sum: nat, n: nat)
    ensures (sum % U64 + n) % U64 == (sum + n) % U64
  {}

  // ---------------------------------------------------------------- writing

  /** The bytes of a message with these parts. */
  function Whole(payload: seq<byte>, numFds: nat, creds: seq<Credential>): seq<byte> {
    MessageBytes(payload, Control(numFds, creds))
  }

  /** Its length: eight for the payload's length, 24 for descriptors, 28 for each credential. */
  function WholeLength(payload: seq<byte>, numFds: nat, creds: seq<Credential>): nat {
    8 + |payload| + (if numFds == 0 then 0 else 24) + 28 * |creds|
  }

  lemma {:induction false} CmsgsAppend(cs: seq<Cmsg>, c: Cmsg)
    ensures CmsgsBytes(cs + [c]) == CmsgsBytes(cs) + CmsgBytes(c)
    decreases cs
  {
    if cs == [] {
      assert cs + [c] == [c] && [c][1..] == [];
      assert CmsgsBytes([c]) == CmsgBytes(c) + CmsgsBytes([c][1..]);
    } else {
      CmsgsAppend(cs[1..], c);
      assert (cs + [c])[1..] == cs[1..] + [c] && (cs + [c])[0] == cs[0];
      Assoc(CmsgBytes(cs[0]), CmsgsBytes(cs[1..]), CmsgBytes(c));
    }
  }

  lemma {:induction false} CredentialsAppend(creds: seq<Credential>, k: nat)
    requires k < |creds|
    ensures CredentialCmsgs(creds[..k + 1]) == CredentialCmsgs(creds[..k]) + [CredentialCmsg(creds[k])]
    decreases creds
  {
    if k > 0 {
      CredentialsAppend(creds[1..], k - 1);
      assert creds[..k + 1][1..] == creds[1..][..k] && creds[..k][1..] == creds[1..][..k - 1];
    }
  }

  function CmsgHeader(c: Cmsg): seq<byte> { LeI32(c.level) + LeI32(c.kind) + Le(|c.data|, 8) }

  lemma WholeParts(payload: seq<byte>, numFds: nat, creds: seq<Credential>)
    ensures Whole(payload, numFds, creds) ==
            (Le(|payload|, 8) + payload) + RightsBytes(numFds) + CmsgsBytes(CredentialCmsgs(creds))
  {
    if numFds == 0 {
      assert Control(numFds, creds) == CredentialCmsgs(creds);
    } else {
      assert Control(numFds, creds)[1..] == CredentialCmsgs(creds);
    }
  }

  function RightsBytes(numFds: nat): seq<byte> { if numFds == 0 then [] else CmsgBytes(RightsCmsg(numFds)) }

  lemma WholeBehind(before: seq<byte>, payload: seq<byte>, numFds: nat, creds: seq<Credential>)
    requires |payload| < U64 && numFds < U64
    ensures
      var all := before + (Le(|payload|, 8) + payload[..|payload|]) + RightsBytes(numFds) + CmsgsBytes(CredentialCmsgs(creds));
      && all == before + Whole(payload, numFds, creds)
      && Parse(all[|before|..]) == Ok(Message(payload, numFds))
  {
    assert payload[..|payload|] == payload;
    WholeParts(payload, numFds, creds);
    Pieces(before, Le(|payload|, 8) + payload, RightsBytes(numFds), CmsgsBytes(CredentialCmsgs(creds)));
    FramingRoundTrip(payload, numFds, creds);
    Behind(before, Whole(payload, numFds, creds));
  }

  lemma Pieces(before: seq<byte>, a: seq<byte>, b: seq<byte>, c: seq<byte>)
    ensures before + a + b + c == before + (a + b + c)
  {}

  lemma Behind(before: seq<byte>, s: seq<byte>)
    ensures (before + s)[|before|..] == s
  {}

  /** One more credential behind those already written. */
  lemma CredentialsStep(before: seq<byte>, creds: seq<Credential>, k: nat)
    requires k < |creds|
    ensures before + CmsgsBytes(CredentialCmsgs(creds[..k])) + CmsgBytes(CredentialCmsg(creds[k])) ==
            before + CmsgsBytes(CredentialCmsgs(creds[..k + 1]))
  {
    var soFar, c := CredentialCmsgs(creds[..k]), CredentialCmsg(creds[k]);
    CredentialsAppend(creds, k);
    CmsgsAppend(soFar, c);
    Assoc(before, CmsgsBytes(soFar), CmsgBytes(c));
  }

  class MsgWriter {
    const buffer: array<byte>
    var writtenLen: nat

    ghost predicate Valid()
      reads this
    {
      writtenLen <= buffer.Length
    }

    ghost function Written(): seq<byte>
      reads this, buffer
      requires Valid()
    {
      buffer[..writtenLen]
    }

    constructor (buffer: array<byte>)
      ensures Valid() && this.buffer == buffer && writtenLen == 0
    {
      this.buffer := buffer;
      writtenLen := 0;
    }

    /** Writes `data` behind the first `at` bytes. */
    method CopyBehind(at: nat, data: seq<byte>)
      requires at + |data| <= buffer.Length
      modifies buffer
      ensures buffer[..at + |data|] == old(buffer[..at]) + data
    {
      CopyInto(buffer, at, data);
      assert buffer[..][..at + |data|] == old(buffer[..])[..at] + data;
    }

    /** Appends `data`, which must fit. */
    method Put(data: seq<byte>)
      requires Valid() && writtenLen + |data| <= buffer.Length
      modifies this, buffer
      ensures Valid() && Written() == old(Written()) + data
    {
      CopyBehind(writtenLen, data);
      writtenLen := writtenLen + |data|;
    }

    /**
     The name's length and as much of it as fits.  Without a name the length field is passed
     over: the caller has cleared it.
     */
    method WriteName(name: Option<seq<byte>>, nameBufSize: nat)
      requires Valid() && buffer.Length < U64
      modifies this, buffer
      ensures Valid()
      ensures
        if old(writtenLen) + 8 > buffer.Length then writtenLen == buffer.Length && Written()[..old(writtenLen)] == old(Written())
        else if name.None? then writtenLen == old(writtenLen) + 8 && buffer[..] == old(buffer[..])
        else
          var shown := name.value[..Min(|name.value|, Min(nameBufSize, buffer.Length - old(writtenLen) - 8))];
          Written() == old(Written()) + (Le(|shown|, 8) + shown)
    {
      if buffer.Length < writtenLen + 8 {
        writtenLen := buffer.Length;
        return;
      }
      if name.None? {
        writtenLen := writtenLen + 8;
        return;
      }
      var copyLen := Min(nameBufSize, buffer.Length - writtenLen - 8);
      var shown := name.value[..Min(|name.value|, copyLen)];
      ghost var before := Written();
      Put(Le(|shown|, 8));
      Put(shown);
      assert (before + Le(|shown|, 8)) + shown == before + (Le(|shown|, 8) + shown);
    }

    /** The full length, and as much of the payload as the receiver has room for. */
    method WritePayload(payload: seq<byte>, fullLen: nat, iovSize: nat) returns (copied: nat)
      requires Valid() && fullLen < U64 && Min(iovSize, fullLen) <= |payload|
      modifies this, buffer
      ensures Valid() && old(writtenLen) <= writtenLen
      ensures
        var shown := payload[..Min(iovSize, fullLen)];
        if old(writtenLen) + 8 + |shown| <= buffer.Length then
          copied == |shown| && Written() == old(Written()) + (Le(fullLen, 8) + shown)
        else copied == 0 && writtenLen == buffer.Length
    {
      if writtenLen + 8 > buffer.Length {
        writtenLen := buffer.Length;
        return 0;
      }
      ghost var before := Written();
      Put(Le(fullLen, 8));
      copied := Min(iovSize, fullLen);
      if writtenLen + copied > buffer.Length {
        writtenLen := buffer.Length;
        return 0;
      }
      Put(payload[..copied]);
      assert (before + Le(fullLen, 8)) + payload[..copied] == before + (Le(fullLen, 8) + payload[..copied]);
    }

    /** A control message goes in whole, or the rest of the buffer is filled with ones. */
    method WriteCmsg(c: Cmsg) returns (ok: bool)
      requires Valid() && |c.data| < U64
      modifies this, buffer
      ensures Valid()
      ensures ok <==> old(writtenLen) + HEADER + |c.data| <= buffer.Length
      ensures Written() == old(Written()) + if ok then CmsgBytes(c) else Ones(buffer.Length - old(writtenLen))
    {
      if buffer.Length - writtenLen < HEADER {
        Put(Ones(buffer.Length - writtenLen));
        return false;
      }
      var start := writtenLen;
      ghost var before := Written();
      WriteHeader(start, c);
      if buffer.Length - start < HEADER + |c.data| {
        assert buffer[..start] == buffer[..start + HEADER][..start] == before;
        Put(Ones(buffer.Length - writtenLen));
        return false;
      }
      CopyBehind(start + HEADER, c.data);
      writtenLen := start + HEADER + |c.data|;
      assert (before + CmsgHeader(c)) + c.data == before + CmsgBytes(c);
      ok := true;
    }

    method WriteHeader(start: nat, c: Cmsg)
      requires start + HEADER <= buffer.Length
      modifies buffer
      ensures buffer[..start + HEADER] == old(buffer[..start]) + CmsgHeader(c)
    {
      ghost var before := buffer[..start];
      CopyBehind(start, LeI32(c.level));
      CopyBehind(start + 4, LeI32(c.kind));
      CopyBehind(start + 8, Le(|c.data|, 8));
      assert ((before + LeI32(c.level)) + LeI32(c.kind)) + Le(|c.data|, 8) == before + CmsgHeader(c);
    }

    method WriteRights(numFds: nat) returns (ok: bool)
      requires Valid() && numFds < U64
      modifies this, buffer
      ensures Valid()
      ensures ok <==> numFds == 0 || old(writtenLen) + 24 <= buffer.Length
      ensures
        Written() == old(Written()) +
          if ok then RightsBytes(numFds) else Ones(buffer.Length - old(writtenLen))
    {
      if numFds == 0 { return true; }
      ok := WriteCmsg(RightsCmsg(numFds));
    }

    method WriteCredentials(c: Credential) returns (ok: bool)
      requires Valid()
      modifies this, buffer
      ensures Valid()
      ensures ok <==> old(writtenLen) + 28 <= buffer.Length
      ensures Written() == old(Written()) + if ok then CmsgBytes(CredentialCmsg(c)) else Ones(buffer.Length - old(writtenLen))
    {
      ok := WriteCmsg(CredentialCmsg(c));
    }

    /** One credential after another, until one does not fit. */
    method WriteAllCredentials(creds: seq<Credential>) returns (ok: bool)
      requires Valid()
      modifies this, buffer
      ensures Valid()
      ensures ok <==> old(writtenLen) + 28 * |creds| <= buffer.Length
      ensures if ok then Written() == old(Written()) + CmsgsBytes(CredentialCmsgs(creds)) else writtenLen == buffer.Length
    {
      ghost var before := Written();
      for i := 0 to |creds|
        invariant Valid() && writtenLen == |before| + 28 * i
        invariant Written() == before + CmsgsBytes(CredentialCmsgs(creds[..i]))
      {
        CredentialsStep(before, creds, i);
        var fitted := WriteCredentials(creds[i]);
        if !fitted { return false; }
      }
      assert creds[..|creds|] == creds;
      ok := true;
    }

    /**
     Everything after the name.  If there is room for all of it, that is what the parser gets
     back; otherwise the whole buffer counts as written.
     */
    method WriteMessage(payload: seq<byte>, numFds: nat, creds: seq<Credential>)
      requires Valid() && |payload| < U64 && numFds < U64
      modifies this, buffer
      ensures Valid()
      ensures
        if old(writtenLen) + WholeLength(payload, numFds, creds) <= buffer.Length then
          && Written() == old(Written()) + Whole(payload, numFds, creds)
          && Parse(Written()[old(writtenLen)..]) == Ok(Message(payload, numFds))
        else writtenLen == buffer.Length
    {
      ghost var before := Written();
      var copied := WritePayload(payload, |payload|, |payload|);
      var rights := WriteRights(numFds);
      var complete := WriteAllCredentials(creds);
      if |before| + WholeLength(payload, numFds, creds) <= buffer.Length {
        WholeBehind(before, payload, numFds, creds);
      }
    }
  }
}
