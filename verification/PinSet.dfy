/** Sets of accepted certificate fingerprints, kept in insertion order. */
module PinSet {
  import opened Common
  import opened Fingerprints

  const MAX_BUS_PINS := 2

  /** Which certificates a list of pins accepts. The zero value means absent, never "any". */
  predicate Contains(pins: seq<Fingerprint>, f: Fingerprint) { f != ZERO && f in pins }

  /** What every constructor of this module produces. */
  ghost predicate WellFormed(pins: seq<Fingerprint>) { NoDuplicates(pins) && ZERO !in pins }

  ghost predicate SameAccepted(a: seq<Fingerprint>, b: seq<Fingerprint>) {
    forall f: Fingerprint :: Contains(a, f) <==> Contains(b, f)
  }

  /** The reference: first occurrences, zero left out. */
  function Gathered(fs: seq<Fingerprint>): seq<Fingerprint> {
    if fs == [] then [] else Gather(Gathered(fs[..|fs| - 1]), fs[|fs| - 1])
  }

  function Gather(pins: seq<Fingerprint>, f: Fingerprint): seq<Fingerprint> {
    if f == ZERO || Contains(pins, f) then pins else pins + [f]
  }

  lemma GatherSpec(pins: seq<Fingerprint>, f: Fingerprint)
    requires WellFormed(pins)
    ensures WellFormed(Gather(pins, f)) && forall x :: x in Gather(pins, f) <==> x in pins || (x == f && f != ZERO)
  {
  }

  lemma {:induction false} GatheredSpec(fs: seq<Fingerprint>)
    ensures WellFormed(Gathered(fs)) && Elements(Gathered(fs)) == Elements(fs) - {ZERO}
  {
    if fs != [] {
      var init, last := fs[..|fs| - 1], fs[|fs| - 1];
      GatheredSpec(init);
      GatherSpec(Gathered(init), last);
      assert fs == init + [last];
      forall x ensures x in Gathered(fs) <==> x in fs && x != ZERO {
        assert x in Gathered(init) <==> x in Elements(Gathered(init));
        assert x in init <==> x in Elements(init);
      }
    }
  }

  lemma {:induction false} GatheredOfWellFormed(fs: seq<Fingerprint>)
    requires WellFormed(fs)
    ensures Gathered(fs) == fs
  {
    if fs != [] {
      var init, last := fs[..|fs| - 1], fs[|fs| - 1];
      assert fs == init + [last];
      assert ZERO !in init && last !in init && last != ZERO;
      GatheredOfWellFormed(init);
      assert Gather(init, last) == init + [last];
    }
  }

  method NewBusPinSet(fs: seq<Fingerprint>) returns (pins: seq<Fingerprint>)
    ensures pins == Gathered(fs)
  {
    pins := [];
    for i := 0 to |fs|
      invariant pins == Gathered(fs[..i])
    {
      assert fs[..i + 1][..i] == fs[..i];
      if fs[i] == ZERO || Contains(pins, fs[i]) { continue; }
      pins := pins + [fs[i]];
    }
    assert fs[..|fs|] == fs;
  }

  /** A list without duplicates, included in another of the same length without duplicates, is the same set. */
  lemma InclusionIsEquality<T>(a: seq<T>, b: seq<T>)
    requires NoDuplicates(a) && NoDuplicates(b) && |a| == |b|
    requires forall x :: x in a ==> x in b
    ensures Elements(a) == Elements(b)
  {
    DistinctCardinality(a);
    DistinctCardinality(b);
    SubsetOfSameSize(Elements(a), Elements(b));
  }

  lemma {:induction false} SubsetOfSameSize<T>(a: set<T>, b: set<T>)
    requires a <= b && |a| == |b|
    ensures a == b
  {
    if x :| x in b && x !in a {
      SubsetSize(a, b - {x});
    }
  }

  lemma {:induction false} SubsetSize<T>(a: set<T>, b: set<T>)
    requires a <= b
    ensures |a| <= |b|
  {
    if a != {} {
      var x :| x in a;
      SubsetSize(a - {x}, b - {x});
    }
  }

  /** One inclusion and the lengths decide equality of the accepted certificates. */
  method Equal(a: seq<Fingerprint>, b: seq<Fingerprint>) returns (same: bool)
    requires WellFormed(a) && WellFormed(b)
    ensures same <==> Elements(a) == Elements(b)
    ensures same <==> SameAccepted(a, b)
  {
    AcceptedIsElements(a, b);
    if |a| != |b| {
      DistinctCardinality(a);
      DistinctCardinality(b);
      return false;
    }
    for i := 0 to |a|
      invariant forall k :: 0 <= k < i ==> a[k] in b
    {
      if !Contains(b, a[i]) {
        assert a[i] in Elements(a) && a[i] !in Elements(b);
        return false;
      }
    }
    InclusionIsEquality(a, b);
    return true;
  }

  lemma AcceptedIsElements(a: seq<Fingerprint>, b: seq<Fingerprint>)
    requires WellFormed(a) && WellFormed(b)
    ensures SameAccepted(a, b) <==> Elements(a) == Elements(b)
  {
    forall f: Fingerprint ensures (Contains(a, f) <==> f in Elements(a)) && (Contains(b, f) <==> f in Elements(b)) { }
    if SameAccepted(a, b) {
      forall f: Fingerprint ensures f in Elements(a) <==> f in Elements(b) { assert Contains(a, f) <==> Contains(b, f); }
    }
  }

  /** Growth by one, refused at the cap and for the zero value; never an eviction. */
  function With(pins: seq<Fingerprint>, f: Fingerprint): (r: Option<seq<Fingerprint>>)
    ensures r.None? <==> f == ZERO || (f !in pins && |pins| >= MAX_BUS_PINS)
    ensures r.Some? && WellFormed(pins) ==>
              && WellFormed(r.value)
              && (forall g :: Contains(r.value, g) <==> Contains(pins, g) || g == f)
              && pins <= r.value && |r.value| <= (if |pins| < MAX_BUS_PINS then MAX_BUS_PINS else |pins|)
  {
    if f == ZERO then None
    else if Contains(pins, f) then Some(pins)
    else if |pins| >= MAX_BUS_PINS then None
    else Some(pins + [f])
  }

  function Without(pins: seq<Fingerprint>, f: Fingerprint): seq<Fingerprint> {
    if pins == [] then []
    else Without(pins[..|pins| - 1], f) + (if pins[|pins| - 1] == f then [] else [pins[|pins| - 1]])
  }

  lemma {:induction false} WithoutMembers(pins: seq<Fingerprint>, f: Fingerprint)
    ensures forall x :: x in Without(pins, f) <==> x in pins && x != f
  {
    if pins != [] {
      WithoutMembers(pins[..|pins| - 1], f);
      assert pins == pins[..|pins| - 1] + [pins[|pins| - 1]];
    }
  }

  lemma {:induction false} WithoutLength(pins: seq<Fingerprint>, f: Fingerprint)
    requires NoDuplicates(pins)
    ensures |Without(pins, f)| == |pins| - (if f in pins then 1 else 0)
  {
    if pins != [] {
      var init, last := pins[..|pins| - 1], pins[|pins| - 1];
      WithoutLength(init, f);
      assert pins == init + [last];
      assert last !in init;
    }
  }

  lemma {:induction false} WithoutDistinct(pins: seq<Fingerprint>, f: Fingerprint)
    requires NoDuplicates(pins)
    ensures NoDuplicates(Without(pins, f))
  {
    if pins != [] {
      var init, last := pins[..|pins| - 1], pins[|pins| - 1];
      WithoutDistinct(init, f);
      WithoutMembers(init, f);
      assert last !in init;
    }
  }

  lemma WithoutSpec(pins: seq<Fingerprint>, f: Fingerprint)
    requires WellFormed(pins)
    ensures WellFormed(Without(pins, f)) && Elements(Without(pins, f)) == Elements(pins) - {f}
    ensures |Without(pins, f)| == |pins| - (if f in pins then 1 else 0)
  {
    WithoutMembers(pins, f);
    WithoutLength(pins, f);
    WithoutDistinct(pins, f);
  }

  // ----- The stored text -----------------------------------------------------

  function Strings(pins: seq<Fingerprint>): (hexes: seq<string>)
    ensures |hexes| == |pins| && forall i :: 0 <= i < |pins| ==> hexes[i] == Hex(pins[i])
  {
    seq(|pins|, i requires 0 <= i < |pins| => Hex(pins[i]))
  }

  /** The fingerprint a text spells, if any; there is at most one. */
  ghost function Spelt(h: string): (f: Option<Fingerprint>)
    ensures f.Some? ==> Hex(f.value) == h
    ensures f.None? ==> forall g: Fingerprint :: Hex(g) != h
  {
    if exists g: Fingerprint :: Hex(g) == h then var g: Fingerprint :| Hex(g) == h; Some(g) else None
  }

  lemma SpeltHex(f: Fingerprint)
    ensures Spelt(Hex(f)) == Some(f)
  {
    HexInjective(Spelt(Hex(f)).value, f);
  }

  ghost function SpeltAll(hexes: seq<string>): (r: seq<Fingerprint>) {
    if hexes == [] then []
    else SpeltAll(hexes[..|hexes| - 1])
         + (if Spelt(hexes[|hexes| - 1]).Some? then [Spelt(hexes[|hexes| - 1]).value] else [])
  }

  ghost predicate AllSpelt(hexes: seq<string>) { forall i :: 0 <= i < |hexes| ==> Spelt(hexes[i]).Some? }

  /** Every text must be a fingerprint; otherwise there is no set at all. */
  method ParseBusPinSet(hexes: seq<string>) returns (r: Option<seq<Fingerprint>>)
    ensures r == if AllSpelt(hexes) then Some(Gathered(SpeltAll(hexes))) else None
  {
    var parsed: seq<Fingerprint> := [];
    for i := 0 to |hexes|
      invariant parsed == SpeltAll(hexes[..i])
      invariant forall k :: 0 <= k < i ==> Spelt(hexes[k]).Some?
    {
      assert hexes[..i + 1][..i] == hexes[..i];
      var f := ParseBusFingerprint(hexes[i]);
      if f.None? { return None; }
      SpeltHex(f.value);
      parsed := parsed + [f.value];
    }
    assert hexes[..|hexes|] == hexes;
    var pins := NewBusPinSet(parsed);
    return Some(pins);
  }

  /** Keeps what can be read; only for narrowing. */
  method ParseBusPinSetLenient(hexes: seq<string>) returns (pins: seq<Fingerprint>)
    ensures pins == Gathered(SpeltAll(hexes))
  {
    var parsed: seq<Fingerprint> := [];
    for i := 0 to |hexes|
      invariant parsed == SpeltAll(hexes[..i])
    {
      assert hexes[..i + 1][..i] == hexes[..i];
      var f := ParseBusFingerprint(hexes[i]);
      if f.Some? {
        SpeltHex(f.value);
        parsed := parsed + [f.value];
      }
    }
    assert hexes[..|hexes|] == hexes;
    pins := NewBusPinSet(parsed);
  }

  lemma {:induction false} SpeltStrings(pins: seq<Fingerprint>)
    ensures SpeltAll(Strings(pins)) == pins
  {
    if pins != [] {
      var init, last := pins[..|pins| - 1], pins[|pins| - 1];
      SpeltStrings(init);
      var hexes := Strings(pins);
      assert hexes[..|pins| - 1] == Strings(init) && hexes[|pins| - 1] == Hex(last);
      SpeltHex(last);
      assert SpeltAll(hexes) == SpeltAll(Strings(init)) + [last];
      assert pins == init + [last];
    }
  }

  /** What is stored reads back as it was, strictly and leniently. */
  lemma StoredReadsBack(pins: seq<Fingerprint>)
    requires WellFormed(pins)
    ensures AllSpelt(Strings(pins)) && Gathered(SpeltAll(Strings(pins))) == pins
  {
    SpeltStrings(pins);
    GatheredOfWellFormed(pins);
    forall i | 0 <= i < |pins| ensures Spelt(Strings(pins)[i]).Some? { SpeltHex(pins[i]); }
  }
}
