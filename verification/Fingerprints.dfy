/** Certificate fingerprints: 32 bytes with one textual form, 64 lowercase hex characters. */
module Fingerprints {
  import opened Common

  const FINGERPRINT_SIZE: nat := 32

  type Byte = n: int | 0 <= n < 256

  type Fingerprint = f: seq<Byte> | |f| == FINGERPRINT_SIZE witness seq(FINGERPRINT_SIZE, _ => 0)

  function Zeros(n: nat): (s: seq<Byte>)
    ensures |s| == n
  {
    if n == 0 then [] else [0] + Zeros(n - 1)
  }

  /** The zero value: no fingerprint. */
  const ZERO: Fingerprint := Zeros(FINGERPRINT_SIZE)

  function HexDigit(n: int): char
    requires 0 <= n < 16
  {
    if n < 10 then '0' + n as char else 'a' + (n - 10) as char
  }

  function HexOfByte(b: Byte): string { [HexDigit(b / 16), HexDigit(b % 16)] }

  function Hex(bytes: seq<Byte>): (s: string)
    ensures |s| == 2 * |bytes|
  {
    if bytes == [] then "" else Hex(bytes[..|bytes| - 1]) + HexOfByte(bytes[|bytes| - 1])
  }

  predicate IsLowerHex(c: char) { '0' <= c <= '9' || 'a' <= c <= 'f' }

  lemma {:induction false} HexIsLower(bytes: seq<Byte>)
    ensures forall i :: 0 <= i < |Hex(bytes)| ==> IsLowerHex(Hex(bytes)[i])
  {
    if bytes != [] { HexIsLower(bytes[..|bytes| - 1]); }
  }

  lemma HexOfByteInjective(a: Byte, b: Byte)
    requires HexOfByte(a) == HexOfByte(b)
    ensures a == b
  {
    assert HexOfByte(a)[0] == HexOfByte(b)[0] && HexOfByte(a)[1] == HexOfByte(b)[1];
    assert a == 16 * (a / 16) + a % 16 && b == 16 * (b / 16) + b % 16;
  }

  lemma {:induction false} HexInjective(a: seq<Byte>, b: seq<Byte>)
    requires Hex(a) == Hex(b)
    ensures a == b
  {
    assert |a| == |b|;
    if a != [] {
      var n := |a| - 1;
      assert Hex(a)[..2 * n] == Hex(a[..n]) && Hex(b)[..2 * n] == Hex(b[..n]);
      assert Hex(a)[2 * n..] == HexOfByte(a[n]) && Hex(b)[2 * n..] == HexOfByte(b[n]);
      HexInjective(a[..n], b[..n]);
      HexOfByteInjective(a[n], b[n]);
      assert a == a[..n] + [a[n]] && b == b[..n] + [b[n]];
    }
  }

  /** What the standard decoder accepts for one digit: either case. */
  function FromHexDigit(c: char): (r: Option<int>)
    ensures r.Some? ==> 0 <= r.value < 16
    ensures IsLowerHex(c) ==> r.Some? && HexDigit(r.value) == c
  {
    if '0' <= c <= '9' then Some((c - '0') as int)
    else if 'a' <= c <= 'f' then Some((c - 'a') as int + 10)
    else if 'A' <= c <= 'F' then Some((c - 'A') as int + 10)
    else None
  }

  lemma NotHex(s: string, i: nat)
    requires i < |s| && FromHexDigit(s[i]).None?
    ensures forall f: Fingerprint :: Hex(f) != s
  {
    forall f: Fingerprint ensures Hex(f) != s { HexIsLower(f); }
  }

  /** Decodes, then insists on the round trip, which rejects every other spelling. */
  method ParseBusFingerprint(s: string) returns (r: Option<Fingerprint>)
    ensures r.Some? ==> Hex(r.value) == s
    ensures r.None? ==> forall f: Fingerprint :: Hex(f) != s
  {
    if |s| != 2 * FINGERPRINT_SIZE { return None; }
    var decoded: seq<Byte> := [];
    while |decoded| < FINGERPRINT_SIZE
      invariant |decoded| <= FINGERPRINT_SIZE
      invariant forall f: Fingerprint :: Hex(f) == s ==> f[..|decoded|] == decoded
      decreases FINGERPRINT_SIZE - |decoded|
    {
      var i := 2 * |decoded|;
      var hi, lo := FromHexDigit(s[i]), FromHexDigit(s[i + 1]);
      if hi.None? { NotHex(s, i); return None; }
      if lo.None? { NotHex(s, i + 1); return None; }
      forall f: Fingerprint | Hex(f) == s ensures f[|decoded|] == 16 * hi.value + lo.value {
        HexAt(f, |decoded|);
      }
      decoded := decoded + [16 * hi.value + lo.value];
    }
    if Hex(decoded) != s {
      forall f: Fingerprint ensures Hex(f) != s { assert f[..|decoded|] == f; }
      return None;
    }
    return Some(decoded);
  }

  lemma {:induction false} HexAt(bytes: seq<Byte>, k: nat)
    requires k < |bytes|
    ensures Hex(bytes)[2 * k] == HexDigit(bytes[k] / 16) && Hex(bytes)[2 * k + 1] == HexDigit(bytes[k] % 16)
  {
    if k < |bytes| - 1 { HexAt(bytes[..|bytes| - 1], k); }
  }
}
