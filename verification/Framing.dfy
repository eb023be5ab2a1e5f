/**
 Fixed-width big-endian integers and length-prefixed fields: the serialisation
 used by every canonical byte sequence the client signs.

 A Go `string` or `[]byte` is a Dafny `string` here, one `char` per byte.
 */
module Framing {

  const UINT32_LIMIT: nat := 0x1_0000_0000
  const UINT64_LIMIT: nat := 0x1_0000_0000_0000_0000

  function Pow256(width: nat): (p: nat)
    ensures p > 0
  {
    if width == 0 then 1 else 256 * Pow256(width - 1)
  }

  /** `n` as `width` big-endian bytes; high bytes that do not fit are dropped. */
  function BigEndian(width: nat, n: nat): (s: string)
    ensures |s| == width
  {
    if width == 0 then "" else BigEndian(width - 1, n / 256) + [(n % 256) as char]
  }

  function Bytes4(n: nat): string { BigEndian(4, n) }

  function Bytes8(n: nat): string { BigEndian(8, n) }

  function LenPrefixed(field: string): string { Bytes4(|field|) + field }

  function LenPrefixedAll(fields: seq<string>): string {
    if fields == [] then "" else LenPrefixedAll(fields[..|fields| - 1]) + LenPrefixed(fields[|fields| - 1])
  }

  lemma Widths()
    ensures Pow256(4) == UINT32_LIMIT
    ensures Pow256(8) == UINT64_LIMIT
  {
    assert Pow256(2) == 65536;
    assert Pow256(4) == 65536 * 65536;
    assert Pow256(6) == 65536 * 65536 * 65536;
  }

  lemma SplitEqual(p: string, x: string, q: string, y: string)
    requires |p| == |q|
    requires p + x == q + y
    ensures p == q && x == y
  {
    assert p == (p + x)[..|p|];
    assert q == (q + y)[..|q|];
    assert x == (p + x)[|p|..];
    assert y == (q + y)[|q|..];
  }

  /** Integers that fit their width are recovered from their bytes. */
  lemma {:induction false} BigEndianInjective(width: nat, a: nat, b: nat)
    requires a < Pow256(width) && b < Pow256(width)
    requires BigEndian(width, a) == BigEndian(width, b)
    ensures a == b
  {
    if width > 0 {
      var x, y := [(a % 256) as char], [(b % 256) as char];
      SplitEqual(BigEndian(width - 1, a / 256), x, BigEndian(width - 1, b / 256), y);
      assert x[0] as int == a % 256 && y[0] as int == b % 256;
      BigEndianInjective(width - 1, a / 256, b / 256);
      assert a == 256 * (a / 256) + a % 256 && b == 256 * (b / 256) + b % 256;
    }
  }

  /** Two streams that both begin with a fixed-width integer agree on the integer and on the rest. */
  lemma IntegerSplit(width: nat, a: nat, x: string, b: nat, y: string)
    requires a < Pow256(width) && b < Pow256(width)
    requires BigEndian(width, a) + x == BigEndian(width, b) + y
    ensures a == b && x == y
  {
    SplitEqual(BigEndian(width, a), x, BigEndian(width, b), y);
    BigEndianInjective(width, a, b);
  }

  /** No byte can move across a field boundary: a length-prefixed field is a prefix code. */
  lemma FieldSplit(a: string, x: string, b: string, y: string)
    requires |a| < UINT32_LIMIT && |b| < UINT32_LIMIT
    requires LenPrefixed(a) + x == LenPrefixed(b) + y
    ensures a == b && x == y
  {
    Widths();
    assert LenPrefixed(a) + x == Bytes4(|a|) + (a + x);
    assert LenPrefixed(b) + y == Bytes4(|b|) + (b + y);
    IntegerSplit(4, |a|, a + x, |b|, b + y);
    SplitEqual(a, x, b, y);
  }

  lemma LenPrefixedAllHead(fields: seq<string>)
    requires fields != []
    ensures LenPrefixedAll(fields) == LenPrefixed(fields[0]) + LenPrefixedAll(fields[1..])
  {
    var n := |fields| - 1;
    if n > 0 {
      LenPrefixedAllHead(fields[..n]);
      assert fields[..n][1..] == fields[1..][..n - 1];
      assert fields[1..][n - 1] == fields[n];
    }
  }

  lemma LenPrefixedAllHeadThen(fields: seq<string>, x: string)
    requires fields != []
    ensures LenPrefixedAll(fields) + x == LenPrefixed(fields[0]) + (LenPrefixedAll(fields[1..]) + x)
  {
    LenPrefixedAllHead(fields);
    Regroup(LenPrefixed(fields[0]), LenPrefixedAll(fields[1..]), x);
  }

  lemma Regroup(a: string, b: string, c: string)
    ensures (a + b) + c == a + (b + c)
  {
  }

  ghost predicate AllFit(fields: seq<string>) {
    forall i :: 0 <= i < |fields| ==> |fields[i]| < UINT32_LIMIT
  }

  /** A counted list of length-prefixed fields is a prefix code too. */
  lemma {:induction false} ListSplit(fields: seq<string>, x: string, others: seq<string>, y: string)
    requires |fields| == |others|
    requires AllFit(fields) && AllFit(others)
    requires LenPrefixedAll(fields) + x == LenPrefixedAll(others) + y
    ensures fields == others && x == y
  {
    if fields == [] {
      assert "" + x == x && "" + y == y;
    } else {
      LenPrefixedAllHeadThen(fields, x);
      LenPrefixedAllHeadThen(others, y);
      FieldSplit(fields[0], LenPrefixedAll(fields[1..]) + x, others[0], LenPrefixedAll(others[1..]) + y);
      ListSplit(fields[1..], x, others[1..], y);
      assert fields == [fields[0]] + fields[1..] && others == [others[0]] + others[1..];
    }
  }
}
