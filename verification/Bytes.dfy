/** Little-endian numbers of any width, and overwriting a stretch of a byte string. */
module Bytes {
  import opened Prelude

  /** 256 to the power `k`: the number of values `k` bytes can hold. */
  function Range(k: nat): nat { if k == 0 then 1 else 256 * Range(k - 1) }

  const U16 := 0x1_0000
  const U32 := 0x1_0000_0000
  const U64 := 0x1_0000_0000_0000_0000

  lemma Ranges()
    ensures Range(2) == U16 && Range(4) == U32 && Range(8) == U64
  {
    assert Range(3) == 256 * Range(2);
    assert Range(5) == 256 * Range(4);
    assert Range(6) == 256 * Range(5);
    assert Range(7) == 256 * Range(6);
  }

  /** The low `k` bytes of `n`, least significant first. */
  function Le(n: nat, k: nat): (s: seq<byte>)
    ensures |s| == k
  {
    if k == 0 then [] else [(n % 256) as byte] + Le(n / 256, k - 1)
  }

  function UnLe(s: seq<byte>): nat {
    if s == [] then 0 else s[0] as nat + 256 * UnLe(s[1..])
  }

  lemma {:induction false} UnLeOfLe(n: nat, k: nat)
    requires n < Range(k)
    ensures UnLe(Le(n, k)) == n
    decreases k
  {
    if k > 0 {
      UnLeOfLe(n / 256, k - 1);
      assert Le(n, k)[1..] == Le(n / 256, k - 1);
    }
  }

  lemma {:induction false} LeOfUnLe(s: seq<byte>)
    ensures Le(UnLe(s), |s|) == s && UnLe(s) < Range(|s|)
    decreases s
  {
    if s != [] {
      LeOfUnLe(s[1..]);
      assert UnLe(s) / 256 == UnLe(s[1..]) && UnLe(s) % 256 == s[0] as nat;
      assert s == [s[0]] + s[1..];
    }
  }

  lemma Assoc(a: seq<byte>, b: seq<byte>, c: seq<byte>)
    ensures (a + b) + c == a + (b + c)
  {}

  /** `s` with the stretch at `at` overwritten. */
  function Splice(s: seq<byte>, at: nat, data: seq<byte>): (r: seq<byte>)
    requires at + |data| <= |s|
    ensures |r| == |s|
  {
    s[..at] + data + s[at + |data|..]
  }

  /** Writes `data` into the buffer at `at`. */
  method CopyInto(buf: array<byte>, at: nat, data: seq<byte>)
    requires at + |data| <= buf.Length
    modifies buf
    ensures buf[..] == Splice(old(buf[..]), at, data)
  {
    for i := 0 to |data|
      invariant forall k | 0 <= k < buf.Length :: buf[k] == if at <= k < at + i then data[k - at] else old(buf[k])
    {
      buf[at + i] := data[i];
    }
  }
}
