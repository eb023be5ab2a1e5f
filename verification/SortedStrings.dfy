/** Bytewise order on strings and the in-place sort used on a copied recipient list. */
module SortedStrings {
  import opened Common

  predicate Le(a: string, b: string) {
    a == "" || (b != "" && (a[0] < b[0] || (a[0] == b[0] && Le(a[1..], b[1..]))))
  }

  lemma {:induction false} LeTotal(a: string, b: string)
    ensures Le(a, b) || Le(b, a)
  {
    if a != "" && b != "" && a[0] == b[0] { LeTotal(a[1..], b[1..]); }
  }

  lemma {:induction false} LeAntisymmetric(a: string, b: string)
    requires Le(a, b) && Le(b, a)
    ensures a == b
  {
    if a != "" && b != "" {
      LeAntisymmetric(a[1..], b[1..]);
      assert a == [a[0]] + a[1..] && b == [b[0]] + b[1..];
    }
  }

  lemma {:induction false} LeTransitive(a: string, b: string, c: string)
    requires Le(a, b) && Le(b, c)
    ensures Le(a, c)
  {
    if a != "" && a[0] == b[0] == c[0] { LeTransitive(a[1..], b[1..], c[1..]); }
  }

  ghost predicate Ascending(s: seq<string>) {
    forall i, j :: 0 <= i < j < |s| ==> Le(s[i], s[j])
  }

  /** The reference: insertion of each string into the sorted strings before it. */
  function Insert(s: seq<string>, x: string): seq<string> {
    if s == [] || Le(s[|s| - 1], x) then s + [x] else Insert(s[..|s| - 1], x) + [s[|s| - 1]]
  }

  function Sorted(s: seq<string>): seq<string> {
    if s == [] then [] else Insert(Sorted(s[..|s| - 1]), s[|s| - 1])
  }

  lemma {:induction false} InsertKeeps(s: seq<string>, x: string)
    ensures multiset(Insert(s, x)) == multiset(s) + multiset{x}
    ensures |Insert(s, x)| == |s| + 1
  {
    if s != [] && !Le(s[|s| - 1], x) {
      InsertKeeps(s[..|s| - 1], x);
      assert s == s[..|s| - 1] + [s[|s| - 1]];
    }
  }

  lemma {:induction false} InsertAscending(s: seq<string>, x: string)
    requires Ascending(s)
    ensures Ascending(Insert(s, x))
  {
    if s == [] {
    } else if Le(s[|s| - 1], x) {
      forall i | 0 <= i < |s| ensures Le(s[i], x) {
        if i < |s| - 1 { LeTransitive(s[i], s[|s| - 1], x); }
      }
    } else {
      var init, last := s[..|s| - 1], s[|s| - 1];
      InsertAscending(init, x);
      InsertKeeps(init, x);
      LeTotal(last, x);
      forall y | y in Insert(init, x) ensures Le(y, last) {
        assert y in multiset(Insert(init, x));
        assert y in init || y == x;
      }
    }
  }

  lemma {:induction false} SortedSpec(s: seq<string>)
    ensures Ascending(Sorted(s)) && multiset(Sorted(s)) == multiset(s) && |Sorted(s)| == |s|
  {
    if s != [] {
      var init, last := s[..|s| - 1], s[|s| - 1];
      assert s == init + [last];
      SortedSpec(init);
      InsertAscending(Sorted(init), last);
      InsertKeeps(Sorted(init), last);
    }
  }

  lemma LastIsGreatest(s: seq<string>, x: string)
    requires Ascending(s) && x in s
    ensures Le(x, s[|s| - 1])
  {
    var i :| 0 <= i < |s| && s[i] == x;
    if i == |s| - 1 { LeTotal(x, x); }
  }

  lemma DropLast(s: seq<string>)
    requires s != []
    ensures multiset(s[..|s| - 1]) == multiset(s) - multiset{s[|s| - 1]}
  {
    assert s == s[..|s| - 1] + [s[|s| - 1]];
  }

  lemma SameLast(s: seq<string>, t: seq<string>)
    requires Ascending(s) && Ascending(t) && multiset(s) == multiset(t) && s != []
    ensures |s| == |t| && s[|s| - 1] == t[|t| - 1]
  {
    assert |s| == |multiset(s)| == |multiset(t)| == |t|;
    var n := |s| - 1;
    assert s[n] in multiset(t) && t[n] in multiset(s);
    LastIsGreatest(s, t[n]);
    LastIsGreatest(t, s[n]);
    LeAntisymmetric(s[n], t[n]);
  }

  /** Without their common greatest string, two ascending arrangements are still ascending and still alike. */
  lemma SameInit(s: seq<string>, t: seq<string>)
    requires Ascending(s) && Ascending(t) && multiset(s) == multiset(t) && s != []
    ensures |s| == |t| && s[|s| - 1] == t[|t| - 1]
    ensures Ascending(s[..|s| - 1]) && Ascending(t[..|t| - 1]) && multiset(s[..|s| - 1]) == multiset(t[..|t| - 1])
  {
    SameLast(s, t);
    DropLast(s);
    DropLast(t);
  }

  /** A multiset of strings has one ascending arrangement. */
  lemma {:induction false} AscendingUnique(s: seq<string>, t: seq<string>)
    requires Ascending(s) && Ascending(t) && multiset(s) == multiset(t)
    ensures s == t
  {
    if s == [] {
      assert |multiset(t)| == |t| && |multiset(s)| == 0;
    } else {
      SameInit(s, t);
      AscendingUnique(s[..|s| - 1], t[..|t| - 1]);
      assert s == s[..|s| - 1] + [s[|s| - 1]] && t == t[..|t| - 1] + [t[|t| - 1]];
    }
  }

  lemma SortedOfPermutation(s: seq<string>, t: seq<string>)
    requires multiset(s) == multiset(t)
    ensures Sorted(s) == Sorted(t)
  {
    SortedSpec(s);
    SortedSpec(t);
    AscendingUnique(Sorted(s), Sorted(t));
  }

  /** On a sorted list, comparing neighbours is enough to find every duplicate. */
  lemma NeighboursDistinct(s: seq<string>)
    requires Ascending(s)
    ensures (forall i :: 1 <= i < |s| ==> s[i] != s[i - 1]) <==> NoDuplicates(s)
  {
    if forall i :: 1 <= i < |s| ==> s[i] != s[i - 1] {
      forall i, j | 0 <= i < j < |s| ensures s[i] != s[j] {
        if s[i] == s[j] && i < j - 1 { LeAntisymmetric(s[j - 1], s[j]); }
      }
    }
  }

  lemma PermutationKeepsDistinct(s: seq<string>, t: seq<string>)
    requires multiset(s) == multiset(t) && NoDuplicates(s)
    ensures NoDuplicates(t)
  {
    forall i, j | 0 <= i < j < |t| ensures t[i] != t[j] {
      DistinctMultiplicity(s, t[i]);
      if t[i] == t[j] { OccursTwice(t, i, j); }
    }
  }

  /** Where the reference puts `x`: before every trailing string that is not at most `x`. */
  lemma {:induction false} InsertAt(s: seq<string>, j: nat, x: string)
    requires j <= |s| && (j > 0 ==> Le(s[j - 1], x))
    requires forall k :: j <= k < |s| ==> !Le(s[k], x)
    ensures Insert(s, x) == s[..j] + [x] + s[j..]
  {
    if j < |s| { InsertAt(s[..|s| - 1], j, x); }
  }

  lemma InsertedAt(s: seq<string>, j: nat, x: string, r: seq<string>)
    requires j <= |s| && (j > 0 ==> Le(s[j - 1], x)) && forall k :: j <= k < |s| ==> !Le(s[k], x)
    requires |r| == |s| + 1 && r[j] == x
    requires forall k :: 0 <= k < j ==> r[k] == s[k]
    requires forall k :: j < k <= |s| ==> r[k] == s[k - 1]
    ensures r == Insert(s, x)
  {
    InsertAt(s, j, x);
  }

  /** Moves every string of the prefix that is not at most `x` one place to the right; `j` is the gap. */
  method MakeRoom(a: array<string>, i: nat, x: string) returns (j: nat)
    requires i < a.Length
    modifies a
    ensures j <= i && (j > 0 ==> Le(a[j - 1], x))
    ensures forall k :: 0 <= k < a.Length && !(j < k <= i) ==> a[k] == old(a[k])
    ensures forall k :: j < k <= i ==> a[k] == old(a[k - 1])
    ensures forall k :: j <= k < i ==> !Le(old(a[k]), x)
  {
    ghost var was := a[..];
    j := i;
    while j > 0 && !Le(a[j - 1], x)
      invariant 0 <= j <= i
      invariant forall k :: 0 <= k <= j || i < k < a.Length ==> a[k] == was[k]
      invariant forall k :: j < k <= i ==> a[k] == was[k - 1]
      invariant forall k :: j <= k < i ==> !Le(was[k], x)
    {
      a[j] := a[j - 1];
      j := j - 1;
    }
  }

  /** One pass of the sort: `a[i]` moves left into the sorted prefix. */
  method InsertInPlace(a: array<string>, i: nat)
    requires i < a.Length
    modifies a
    ensures a[..i + 1] == Insert(old(a[..i]), old(a[i]))
    ensures a[i + 1..] == old(a[i + 1..])
  {
    ghost var prefix := a[..i];
    var x := a[i];
    var j := MakeRoom(a, i, x);
    a[j] := x;
    InsertedAt(prefix, j, x, a[..i + 1]);
  }

  /** The sort of a slice in place: its contents become the reference arrangement. */
  method SortInPlace(a: array<string>)
    modifies a
    ensures a[..] == Sorted(old(a[..]))
  {
    ghost var was := a[..];
    var i := 0;
    while i < a.Length
      invariant 0 <= i <= a.Length
      invariant a[..i] == Sorted(was[..i])
      invariant a[i..] == was[i..]
    {
      assert a[i] == was[i] && was[..i + 1][..i] == was[..i];
      assert a[i + 1..] == was[i + 1..];
      InsertInPlace(a, i);
      i := i + 1;
    }
    assert was[..i] == was;
  }
}
