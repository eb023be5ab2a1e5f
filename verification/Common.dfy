/** Small datatypes shared by every module. */
module Common {

  datatype Option<+T> = None | Some(value: T)

  /** The source's `(value, error)` pairs: a value, or the reason there is none. */
  datatype Result<+T, +E> = Ok(value: T) | Err(error: E)

  ghost predicate NoDuplicates<T>(s: seq<T>) {
    forall i, j :: 0 <= i < j < |s| ==> s[i] != s[j]
  }

  function Elements<T>(s: seq<T>): set<T> {
    set x | x in s
  }

  /** A list without duplicates has as many members as positions. */
  lemma {:induction false} DistinctCardinality<T>(s: seq<T>)
    requires NoDuplicates(s)
    ensures |Elements(s)| == |s|
  {
    if s != [] {
      var init, last := s[..|s| - 1], s[|s| - 1];
      DistinctCardinality(init);
      assert Elements(s) == Elements(init) + {last};
      assert last !in init;
    }
  }

  /** Two lists without duplicates over the same members are the same multiset. */
  lemma DistinctSameMultiset<T>(s: seq<T>, t: seq<T>)
    requires NoDuplicates(s) && NoDuplicates(t)
    requires Elements(s) == Elements(t)
    ensures multiset(s) == multiset(t)
  {
    forall x ensures multiset(s)[x] == multiset(t)[x] {
      DistinctMultiplicity(s, x);
      DistinctMultiplicity(t, x);
      assert x in s <==> x in Elements(s);
      assert x in t <==> x in Elements(t);
    }
  }

  lemma {:induction false} DistinctMultiplicity<T>(s: seq<T>, x: T)
    requires NoDuplicates(s)
    ensures multiset(s)[x] == if x in s then 1 else 0
  {
    if s != [] {
      var init, last := s[..|s| - 1], s[|s| - 1];
      assert s == init + [last];
      DistinctMultiplicity(init, x);
    }
  }

  lemma OccursTwice<T>(s: seq<T>, i: nat, j: nat)
    requires i < j < |s| && s[i] == s[j]
    ensures multiset(s)[s[i]] >= 2
  {
    assert s == s[..i] + [s[i]] + s[i + 1..j] + [s[j]] + s[j + 1..];
  }
}
