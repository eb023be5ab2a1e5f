/**
 The in-place migration of the cursor file to keys of agent id and bus id.

 `Collapse` is the reference: records in order of first occurrence of their key,
 each replaced only by a later-updated one. The method compacts one array while
 reading it, with a map from the joined key string to the slot already kept.
 */
module CursorMigration {
  import opened Common
  import opened MessageIds
  import opened CursorRecords

  /** The record under its bus id; None when no bus id can be derived from the agent id. */
  function Keyed(r: Record): (k: Option<Record>)
    ensures k.Some? ==> k.value.busId != "" && k.value == r.(busId := k.value.busId)
  {
    if r.busId != "" then Some(r) else
    match QualifyingBusId(r.agentId)
    case Some(bus) => Some(r.(busId := bus))
    case None => None
  }

  function Qualified(rs: seq<Record>): seq<Record> {
    if rs == [] then [] else
    var init, last := Qualified(rs[..|rs| - 1]), Keyed(rs[|rs| - 1]);
    if last.Some? then init + [last.value] else init
  }

  function PairKey(r: Record): (string, string) { (r.agentId, r.busId) }

  // ----- The reference, for any notion of key --------------------------------

  function Place<K(==)>(rs: seq<Record>, key: Record -> K, k: K): (i: nat)
    ensures i <= |rs| && (i < |rs| ==> key(rs[i]) == k)
    ensures forall j :: 0 <= j < i ==> key(rs[j]) != k
  {
    if rs == [] || key(rs[0]) == k then 0 else 1 + Place(rs[1..], key, k)
  }

  function Add<K(==)>(out: seq<Record>, key: Record -> K, r: Record): seq<Record> {
    var i := Place(out, key, key(r));
    if i == |out| then out + [r]
    else if r.updated > out[i].updated then out[i := r]
    else out
  }

  function Collapse<K(==)>(rs: seq<Record>, key: Record -> K): seq<Record> {
    if rs == [] then [] else Add(Collapse(rs[..|rs| - 1], key), key, rs[|rs| - 1])
  }

  ghost predicate UniqueKeys<K(!new)>(rs: seq<Record>, key: Record -> K) {
    forall i, j :: 0 <= i < j < |rs| ==> key(rs[i]) != key(rs[j])
  }

  /** Position `i` holds the latest-updated record of its key; among equals, the first. */
  ghost predicate Best<K(!new)>(rs: seq<Record>, key: Record -> K, i: int) {
    && 0 <= i < |rs|
    && (forall j :: 0 <= j < i && key(rs[j]) == key(rs[i]) ==> rs[j].updated < rs[i].updated)
    && (forall j :: i < j < |rs| && key(rs[j]) == key(rs[i]) ==> rs[j].updated <= rs[i].updated)
  }

  ghost predicate IsBest<K(!new)>(rs: seq<Record>, key: Record -> K, r: Record) {
    exists i :: Best(rs, key, i) && rs[i] == r
  }

  ghost predicate HasKey<K(!new)>(rs: seq<Record>, key: Record -> K, k: K) {
    exists i :: 0 <= i < |rs| && key(rs[i]) == k
  }

  lemma BestStays<K(!new)>(init: seq<Record>, key: Record -> K, last: Record, r: Record)
    requires IsBest(init, key, r) && (key(last) != key(r) || last.updated <= r.updated)
    ensures IsBest(init + [last], key, r)
  {
    var i :| Best(init, key, i) && init[i] == r;
    assert Best(init + [last], key, i);
  }

  lemma BestReplacedAt<K(!new)>(init: seq<Record>, key: Record -> K, last: Record, i: int)
    requires Best(init, key, i) && key(last) == key(init[i]) && last.updated > init[i].updated
    ensures Best(init + [last], key, |init|)
  {
    forall j | 0 <= j < |init| && key(init[j]) == key(last) ensures init[j].updated < last.updated {
      assert j < i || j == i || j > i;
    }
  }

  lemma BestReplaced<K(!new)>(init: seq<Record>, key: Record -> K, last: Record, r: Record)
    requires IsBest(init, key, r) && key(last) == key(r) && last.updated > r.updated
    ensures IsBest(init + [last], key, last)
  {
    var i :| Best(init, key, i) && init[i] == r;
    BestReplacedAt(init, key, last, i);
    assert (init + [last])[|init|] == last;
  }

  /** Every record of `out` is the best of its key, and no two share one. */
  ghost predicate Bests<K(!new)>(rs: seq<Record>, key: Record -> K, out: seq<Record>) {
    UniqueKeys(out, key) && forall i :: 0 <= i < |out| ==> IsBest(rs, key, out[i])
  }

  lemma AddNew<K(!new)>(init: seq<Record>, key: Record -> K, out: seq<Record>, last: Record)
    requires Bests(init, key, out) && Place(out, key, key(last)) == |out| && !HasKey(init, key, key(last))
    ensures Bests(init + [last], key, out + [last])
  {
    forall j | 0 <= j < |init| ensures key(init[j]) != key(last) { assert HasKey(init, key, key(init[j])); }
    assert Best(init + [last], key, |init|) && (init + [last])[|init|] == last;
    forall i | 0 <= i < |out| ensures IsBest(init + [last], key, out[i]) { BestStays(init, key, last, out[i]); }
  }

  lemma AddNewer<K(!new)>(init: seq<Record>, key: Record -> K, out: seq<Record>, last: Record, i: nat)
    requires Bests(init, key, out) && i < |out| && key(out[i]) == key(last) && last.updated > out[i].updated
    ensures Bests(init + [last], key, out[i := last])
  {
    BestReplaced(init, key, last, out[i]);
    forall j | 0 <= j < |out| && j != i ensures key(out[j]) != key(last) && IsBest(init + [last], key, out[j]) {
      BestStays(init, key, last, out[j]);
    }
  }

  lemma AddOlder<K(!new)>(init: seq<Record>, key: Record -> K, out: seq<Record>, last: Record, i: nat)
    requires Bests(init, key, out) && i < |out| && key(out[i]) == key(last) && last.updated <= out[i].updated
    ensures Bests(init + [last], key, out)
  {
    forall j | 0 <= j < |out| ensures IsBest(init + [last], key, out[j]) {
      assert j != i ==> key(out[j]) != key(last);
      BestStays(init, key, last, out[j]);
    }
  }

  lemma AddCorrect<K(!new)>(init: seq<Record>, key: Record -> K, out: seq<Record>, last: Record)
    requires Bests(init, key, out)
    requires HasKey(init, key, key(last)) <==> HasKey(out, key, key(last))
    ensures Bests(init + [last], key, Add(out, key, last))
  {
    var i := Place(out, key, key(last));
    if i == |out| {
      assert !HasKey(out, key, key(last));
      AddNew(init, key, out, last);
    } else if last.updated > out[i].updated {
      AddNewer(init, key, out, last, i);
    } else {
      AddOlder(init, key, out, last, i);
    }
  }

  lemma AddKeys<K(!new)>(init: seq<Record>, key: Record -> K, out: seq<Record>, last: Record, k: K)
    requires HasKey(init, key, k) <==> HasKey(out, key, k)
    ensures HasKey(init + [last], key, k) <==> HasKey(Add(out, key, last), key, k)
  {
    var i, out' := Place(out, key, key(last)), Add(out, key, last);
    var all := init + [last];
    if HasKey(init, key, k) {
      var a :| 0 <= a < |init| && key(init[a]) == k;
      assert key(all[a]) == k;
      var b :| 0 <= b < |out| && key(out[b]) == k;
      assert key(out'[b]) == k;
    }
    if key(last) == k {
      assert all[|init|] == last;
      assert key(out'[i]) == k;
    }
    if HasKey(all, key, k) && key(last) != k {
      var a :| 0 <= a < |all| && key(all[a]) == k;
      assert key(init[a]) == k;
    }
    if HasKey(out', key, k) && key(last) != k {
      var b :| 0 <= b < |out'| && key(out'[b]) == k;
      assert key(out[b]) == k;
    }
  }

  lemma {:induction false} CollapseKeys<K(!new)>(rs: seq<Record>, key: Record -> K, k: K)
    ensures HasKey(rs, key, k) <==> HasKey(Collapse(rs, key), key, k)
  {
    if rs != [] {
      var init, last := rs[..|rs| - 1], rs[|rs| - 1];
      CollapseKeys(init, key, k);
      AddKeys(init, key, Collapse(init, key), last, k);
      assert rs == init + [last];
    }
  }

  lemma CollapseOneMore<K(!new)>(rs: seq<Record>, key: Record -> K, out: seq<Record>, out': seq<Record>)
    requires rs != [] && Bests(rs[..|rs| - 1], key, out)
    requires HasKey(rs[..|rs| - 1], key, key(rs[|rs| - 1])) <==> HasKey(out, key, key(rs[|rs| - 1]))
    requires out' == Add(out, key, rs[|rs| - 1])
    ensures Bests(rs, key, out')
  {
    AddCorrect(rs[..|rs| - 1], key, out, rs[|rs| - 1]);
    assert rs == rs[..|rs| - 1] + [rs[|rs| - 1]];
  }

  lemma {:induction false} CollapseBests<K(!new)>(rs: seq<Record>, key: Record -> K)
    ensures Bests(rs, key, Collapse(rs, key))
  {
    if rs != [] {
      CollapseBests(rs[..|rs| - 1], key);
      CollapseKeys(rs[..|rs| - 1], key, key(rs[|rs| - 1]));
      CollapseOneMore(rs, key, Collapse(rs[..|rs| - 1], key), Collapse(rs, key));
    }
  }

  /** One record per key, the best of its key, and no key lost. */
  lemma CollapseCorrect<K(!new)>(rs: seq<Record>, key: Record -> K)
    ensures Bests(rs, key, Collapse(rs, key))
    ensures forall k :: HasKey(rs, key, k) <==> HasKey(Collapse(rs, key), key, k)
  {
    CollapseBests(rs, key);
    forall k ensures HasKey(rs, key, k) <==> HasKey(Collapse(rs, key), key, k) { CollapseKeys(rs, key, k); }
  }

  /** Those three facts and the order leave no freedom; in particular collapsing again changes nothing. */
  lemma {:induction false} CollapseOfUnique<K(!new)>(rs: seq<Record>, key: Record -> K)
    requires UniqueKeys(rs, key)
    ensures Collapse(rs, key) == rs
  {
    if rs != [] {
      var init, last := rs[..|rs| - 1], rs[|rs| - 1];
      CollapseOfUnique(init, key);
      assert Place(init, key, key(last)) == |init|;
    }
  }

  lemma {:induction false} QualifiedOfQualified(rs: seq<Record>)
    requires forall i :: 0 <= i < |rs| ==> rs[i].busId != ""
    ensures Qualified(rs) == rs
  {
    if rs != [] { QualifiedOfQualified(rs[..|rs| - 1]); }
  }

  lemma {:induction false} QualifiedHasBus(rs: seq<Record>)
    ensures forall i :: 0 <= i < |Qualified(rs)| ==> Qualified(rs)[i].busId != ""
  {
    if rs != [] { QualifiedHasBus(rs[..|rs| - 1]); }
  }

  /** The record is of this agent and bus: its own bus id says so, or there is none and the agent id does. */
  ghost predicate Belongs(raw: Record, agent: string, bus: string) {
    raw.agentId == agent && bus != "" && (raw.busId == bus || (raw.busId == "" && QualifiedOn(agent, bus)))
  }

  /** `r` is the record itself, under the bus it belongs to. */
  ghost predicate Stands(raw: Record, r: Record) { Belongs(raw, r.agentId, r.busId) && r == raw.(busId := r.busId) }

  lemma KeyedMeaning(raw: Record, agent: string, bus: string)
    ensures Belongs(raw, agent, bus) <==> Keyed(raw).Some? && PairKey(Keyed(raw).value) == (agent, bus)
  {
    assert QualifiedOn(raw.agentId, "") ==> LegalBusId("");
  }

  /** Every record that belongs to some bus is kept, and nothing else appears. */
  lemma {:induction false} QualifiedMembers(rs: seq<Record>, r: Record)
    ensures r in Qualified(rs) <==> exists i :: 0 <= i < |rs| && Stands(rs[i], r)
  {
    if rs != [] {
      var init, last := rs[..|rs| - 1], rs[|rs| - 1];
      QualifiedMembers(init, r);
      KeyedMeaning(last, r.agentId, r.busId);
      if i :| 0 <= i < |init| && Stands(init[i], r) { assert Stands(rs[i], r); }
      if i :| 0 <= i < |rs| && Stands(rs[i], r) { assert i < |init| ==> Stands(init[i], r); }
      assert Stands(last, r) ==> Stands(rs[|rs| - 1], r);
    }
  }

  // ----- The two notions of key ----------------------------------------------

  /** The map key the migration uses. */
  function JoinedKey(r: Record): string { r.agentId + "\0" + r.busId }

  function Migrated(rs: seq<Record>): seq<Record> { Collapse(Qualified(rs), JoinedKey) }

  /** The joined key does not tell two different pairs apart. */
  ghost predicate Collides(rs: seq<Record>) {
    exists i, j :: 0 <= i < |rs| && 0 <= j < |rs| && JoinedKey(rs[i]) == JoinedKey(rs[j]) && PairKey(rs[i]) != PairKey(rs[j])
  }

  predicate NulFree(s: string) { forall i :: 0 <= i < |s| ==> s[i] != '\0' }

  lemma JoinedParts(r: Record)
    requires NulFree(r.agentId)
    ensures var s, n := JoinedKey(r), |r.agentId|;
            n < |s| && s[n] == '\0' && (forall i :: 0 <= i < n ==> s[i] != '\0') && s[..n] == r.agentId && s[n + 1..] == r.busId
  {
  }

  lemma NulFreeJoin(r: Record, q: Record)
    requires NulFree(r.agentId) && NulFree(q.agentId) && JoinedKey(r) == JoinedKey(q)
    ensures PairKey(r) == PairKey(q)
  {
    JoinedParts(r);
    JoinedParts(q);
  }

  lemma BestIsMember<K(!new)>(rs: seq<Record>, key: Record -> K, r: Record)
    requires IsBest(rs, key, r)
    ensures r in rs
  {
    var i :| Best(rs, key, i) && rs[i] == r;
  }

  lemma SameAdd(out: seq<Record>, r: Record)
    requires forall i :: 0 <= i < |out| ==> (JoinedKey(out[i]) == JoinedKey(r) <==> PairKey(out[i]) == PairKey(r))
    ensures Add(out, JoinedKey, r) == Add(out, PairKey, r)
  {
    assert Place(out, JoinedKey, JoinedKey(r)) == Place(out, PairKey, PairKey(r));
  }

  lemma CollapseMembers<K(!new)>(rs: seq<Record>, key: Record -> K, i: nat) returns (j: nat)
    requires i < |Collapse(rs, key)|
    ensures j < |rs| && rs[j] == Collapse(rs, key)[i]
  {
    CollapseBests(rs, key);
    BestIsMember(rs, key, Collapse(rs, key)[i]);
    j :| 0 <= j < |rs| && rs[j] == Collapse(rs, key)[i];
  }

  lemma {:induction false} SameCollapse(rs: seq<Record>)
    requires !Collides(rs)
    ensures Collapse(rs, JoinedKey) == Collapse(rs, PairKey)
  {
    if rs != [] {
      var init, last := rs[..|rs| - 1], rs[|rs| - 1];
      SameCollapse(init);
      var out := Collapse(init, PairKey);
      forall i | 0 <= i < |out| ensures JoinedKey(out[i]) == JoinedKey(last) <==> PairKey(out[i]) == PairKey(last) {
        var j := CollapseMembers(init, PairKey, i);
        assert rs[j] == out[i];
      }
      SameAdd(out, last);
    }
  }

  lemma TwoOfOneJoin(out: seq<Record>, p: (string, string), q: (string, string))
    requires p != q && HasKey(out, PairKey, p) && HasKey(out, PairKey, q)
    requires p.0 + "\0" + p.1 == q.0 + "\0" + q.1
    ensures !UniqueKeys(out, JoinedKey)
  {
    var a :| 0 <= a < |out| && PairKey(out[a]) == p;
    var b :| 0 <= b < |out| && PairKey(out[b]) == q;
    assert JoinedKey(out[a]) == JoinedKey(out[b]) && a != b;
  }

  lemma CollisionDiffers(rs: seq<Record>, i: nat, j: nat)
    requires i < |rs| && j < |rs| && JoinedKey(rs[i]) == JoinedKey(rs[j]) && PairKey(rs[i]) != PairKey(rs[j])
    ensures Collapse(rs, JoinedKey) != Collapse(rs, PairKey)
  {
    CollapseKeys(rs, PairKey, PairKey(rs[i]));
    CollapseKeys(rs, PairKey, PairKey(rs[j]));
    TwoOfOneJoin(Collapse(rs, PairKey), PairKey(rs[i]), PairKey(rs[j]));
    CollapseBests(rs, JoinedKey);
  }

  /** The joined key migrates as the pair does, unless two different pairs join to one string. */
  lemma JoinedKeyIsFaithful(rs: seq<Record>)
    ensures Collapse(rs, JoinedKey) == Collapse(rs, PairKey) <==> !Collides(rs)
  {
    if !Collides(rs) {
      SameCollapse(rs);
    } else {
      var i, j :| 0 <= i < |rs| && 0 <= j < |rs| && JoinedKey(rs[i]) == JoinedKey(rs[j]) && PairKey(rs[i]) != PairKey(rs[j]);
      CollisionDiffers(rs, i, j);
    }
  }

  /** Two records whose pairs differ and join to one string: the second position is lost. */
  lemma CollisionLosesOne(r: Record, q: Record)
    requires r.busId != "" && q.busId != "" && q.updated <= r.updated
    requires JoinedKey(r) == JoinedKey(q) && PairKey(r) != PairKey(q)
    ensures Migrated([r, q]) == [r] && Collapse(Qualified([r, q]), PairKey) == [r, q]
  {
    var rs := [r, q];
    QualifiedOfQualified(rs);
    CollapseOfUnique([r], JoinedKey);
    CollapseOfUnique(rs, PairKey);
    assert rs[..1] == [r] && rs[1] == q;
    assert Place([r], JoinedKey, JoinedKey(q)) == 0;
    assert Add([r], JoinedKey, q) == [r];
  }

  /** There are such records: ids that differ only in where a NUL falls. */
  lemma NulCollides(c: string, d: string, t: int)
    ensures var r, q := Record("a\0b", "c", c, t), Record("a", "b\0c", d, t);
            JoinedKey(r) == JoinedKey(q) && PairKey(r) != PairKey(q)
  {
    var r, q := Record("a\0b", "c", c, t), Record("a", "b\0c", d, t);
    assert JoinedKey(r) == "a\0b\0c" && JoinedKey(q) == "a\0b\0c";
    assert |r.busId| != |q.busId|;
  }

  /** For agent ids without NUL the migration keeps one record per agent and bus, the best of each. */
  lemma MigrationMeaning(rs: seq<Record>)
    requires forall r :: r in rs ==> NulFree(r.agentId)
    ensures Bests(Qualified(rs), PairKey, Migrated(rs))
    ensures forall k :: HasKey(Qualified(rs), PairKey, k) <==> HasKey(Migrated(rs), PairKey, k)
  {
    var q := Qualified(rs);
    forall i | 0 <= i < |q| ensures NulFree(q[i].agentId) { QualifiedMembers(rs, q[i]); }
    if Collides(q) {
      var i, j :| 0 <= i < |q| && 0 <= j < |q| && JoinedKey(q[i]) == JoinedKey(q[j]) && PairKey(q[i]) != PairKey(q[j]);
      NulFreeJoin(q[i], q[j]);
    }
    JoinedKeyIsFaithful(q);
    CollapseCorrect(q, PairKey);
  }

  /** Record `i` is the latest of the agent and bus of `r`, the first among equally late ones. */
  ghost predicate Latest(rs: seq<Record>, r: Record, i: int) {
    && 0 <= i < |rs| && Stands(rs[i], r)
    && (forall j :: 0 <= j < i && Belongs(rs[j], r.agentId, r.busId) ==> rs[j].updated < r.updated)
    && (forall j :: i < j < |rs| && Belongs(rs[j], r.agentId, r.busId) ==> rs[j].updated <= r.updated)
  }

  /** All of that agent and bus are older than `r`. */
  ghost predicate AllOlder(rs: seq<Record>, r: Record) {
    forall j :: 0 <= j < |rs| && Belongs(rs[j], r.agentId, r.busId) ==> rs[j].updated < r.updated
  }

  lemma LatestBefore(init: seq<Record>, last: Record, r: Record, i: int)
    requires Latest(init + [last], r, i) && i < |init|
    ensures Latest(init, r, i) && (Belongs(last, r.agentId, r.busId) ==> last.updated <= r.updated)
  {
    var rs := init + [last];
    assert rs[|init|] == last;
    forall j | 0 <= j < |init| ensures init[j] == rs[j] {}
  }

  lemma BestBefore(q: seq<Record>, last: Record, i: int)
    requires Best(q + [last], PairKey, i) && i < |q|
    ensures Best(q, PairKey, i) && (PairKey(last) == PairKey(q[i]) ==> last.updated <= q[i].updated)
  {
    var rs := q + [last];
    assert rs[|q|] == last;
    forall j | 0 <= j < |q| ensures q[j] == rs[j] {}
    forall j | 0 <= j < |q| && PairKey(q[j]) == PairKey(q[i])
      ensures (j < i ==> q[j].updated < q[i].updated) && (i < j ==> q[j].updated <= q[i].updated)
    {
      assert PairKey(rs[j]) == PairKey(rs[i]);
    }
  }

  lemma LatestOneMore(init: seq<Record>, last: Record, r: Record)
    ensures (exists i :: Latest(init + [last], r, i)) <==>
            || ((exists i :: Latest(init, r, i)) && (Belongs(last, r.agentId, r.busId) ==> last.updated <= r.updated))
            || (Stands(last, r) && AllOlder(init, r))
  {
    var rs := init + [last];
    if i :| Latest(rs, r, i) {
      if i < |init| {
        LatestBefore(init, last, r, i);
      } else {
        assert forall j :: 0 <= j < |init| ==> rs[j] == init[j];
      }
    }
    if i :| Latest(init, r, i) && (Belongs(last, r.agentId, r.busId) ==> last.updated <= r.updated) { assert Latest(rs, r, i); }
    if Stands(last, r) && AllOlder(init, r) { assert Latest(rs, r, |init|); }
  }

  lemma BestOneMore(q: seq<Record>, last: Record, r: Record)
    ensures IsBest(q + [last], PairKey, r) <==>
            || (IsBest(q, PairKey, r) && (PairKey(last) == PairKey(r) ==> last.updated <= r.updated))
            || (last == r && forall j :: 0 <= j < |q| && PairKey(q[j]) == PairKey(r) ==> q[j].updated < r.updated)
  {
    var rs := q + [last];
    if IsBest(rs, PairKey, r) {
      var i :| Best(rs, PairKey, i) && rs[i] == r;
      if i < |q| {
        BestBefore(q, last, i);
      } else {
        assert forall j :: 0 <= j < |q| ==> rs[j] == q[j];
      }
    }
    if IsBest(q, PairKey, r) && (PairKey(last) == PairKey(r) ==> last.updated <= r.updated) { BestStays(q, PairKey, last, r); }
    if last == r && forall j :: 0 <= j < |q| && PairKey(q[j]) == PairKey(r) ==> q[j].updated < r.updated {
      assert Best(rs, PairKey, |q|) && rs[|q|] == r;
    }
  }

  lemma QualifiedOlder(rs: seq<Record>, r: Record)
    requires r.busId != ""
    ensures AllOlder(rs, r) <==>
            forall j :: 0 <= j < |Qualified(rs)| && PairKey(Qualified(rs)[j]) == PairKey(r) ==> Qualified(rs)[j].updated < r.updated
  {
    var q := Qualified(rs);
    if AllOlder(rs, r) {
      forall j | 0 <= j < |q| && PairKey(q[j]) == PairKey(r) ensures q[j].updated < r.updated { QualifiedMembers(rs, q[j]); }
    } else {
      var i :| 0 <= i < |rs| && Belongs(rs[i], r.agentId, r.busId) && rs[i].updated >= r.updated;
      var x := rs[i].(busId := r.busId);
      QualifiedMembers(rs, x);
      assert Stands(rs[i], x);
      var j :| 0 <= j < |q| && q[j] == x;
    }
  }

  lemma {:induction false} QualifiedBest(rs: seq<Record>, r: Record)
    requires r.busId != ""
    ensures IsBest(Qualified(rs), PairKey, r) <==> exists i :: Latest(rs, r, i)
  {
    if rs != [] {
      var init, last := rs[..|rs| - 1], rs[|rs| - 1];
      assert rs == init + [last];
      QualifiedBest(init, r);
      QualifiedOlder(init, r);
      LatestOneMore(init, last, r);
      KeyedMeaning(last, r.agentId, r.busId);
      if Keyed(last).Some? { BestOneMore(Qualified(init), Keyed(last).value, r); }
    }
  }

  /**
   The whole migration on what the file held, for agent ids without NUL: a record comes
   out exactly when it is the latest of its agent and bus, and each agent and bus once.
   */
  lemma MigrationExactly(rs: seq<Record>, r: Record)
    requires forall x :: x in rs ==> NulFree(x.agentId)
    ensures r in Migrated(rs) <==> r.busId != "" && exists i :: Latest(rs, r, i)
    ensures UniqueKeys(Migrated(rs), PairKey)
  {
    var q, out := Qualified(rs), Migrated(rs);
    MigrationMeaning(rs);
    QualifiedHasBus(rs);
    if r.busId != "" { QualifiedBest(rs, r); }
    if r in out {
      var i :| 0 <= i < |out| && out[i] == r;
      BestIsMember(q, PairKey, r);
    } else if r.busId != "" && IsBest(q, PairKey, r) {
      BestIsMember(q, PairKey, r);
      assert HasKey(q, PairKey, PairKey(r));
      var i :| 0 <= i < |out| && PairKey(out[i]) == PairKey(r);
      BestIsOne(q, r, out[i]);
    }
  }

  lemma BestIsOne(rs: seq<Record>, r: Record, r': Record)
    requires IsBest(rs, PairKey, r) && IsBest(rs, PairKey, r') && PairKey(r) == PairKey(r')
    ensures r == r'
  {
    var i :| Best(rs, PairKey, i) && rs[i] == r;
    var j :| Best(rs, PairKey, j) && rs[j] == r';
    assert i < j || i == j || j < i;
  }

  /** Migrating what was migrated changes nothing. */
  lemma MigrationIdempotent(rs: seq<Record>)
    ensures Migrated(Migrated(rs)) == Migrated(rs)
  {
    var q, out := Qualified(rs), Migrated(rs);
    CollapseBests(q, JoinedKey);
    QualifiedHasBus(rs);
    forall i | 0 <= i < |out| ensures out[i].busId != "" { BestIsMember(q, JoinedKey, out[i]); }
    QualifiedOfQualified(out);
    CollapseOfUnique(out, JoinedKey);
  }

  // ----- The migration -------------------------------------------------------

  /** `kept` maps every key of `out` to its slot, and nothing else. */
  ghost predicate Indexes(kept: map<string, nat>, out: seq<Record>) {
    && (forall k :: k in kept ==> kept[k] < |out| && JoinedKey(out[kept[k]]) == k)
    && (forall i :: 0 <= i < |out| ==> JoinedKey(out[i]) in kept && kept[JoinedKey(out[i])] == i)
  }

  lemma IndexIsPlace(kept: map<string, nat>, out: seq<Record>, k: string)
    requires Indexes(kept, out)
    ensures Place(out, JoinedKey, k) == if k in kept then kept[k] else |out|
  {
  }

  /** Adds one record to the `n` already gathered at the front. */
  method Keep(a: array<Record>, n: nat, kept: map<string, nat>, r: Record) returns (n': nat, kept': map<string, nat>)
    requires n < a.Length && Indexes(kept, a[..n])
    modifies a
    ensures n <= n' <= n + 1 && a[..n'] == Add(old(a[..n]), JoinedKey, r) && Indexes(kept', a[..n'])
    ensures forall k :: n < k < a.Length ==> a[k] == old(a[k])
  {
    ghost var out := a[..n];
    var key := JoinedKey(r);
    IndexIsPlace(kept, out, key);
    n', kept' := n, kept;
    if key in kept {
      if r.updated > a[kept[key]].updated {
        a[kept[key]] := r;
        assert a[..n] == out[kept[key] := r];
      }
    } else {
      kept' := kept[key := n];
      a[n] := r;
      n' := n + 1;
      assert a[..n + 1] == out + [r];
    }
  }

  /** One pass: the kept records are gathered at the front of the array being read. */
  method Migrate(a: array<Record>) returns (n: nat)
    modifies a
    ensures n <= a.Length && a[..n] == Migrated(old(a[..]))
  {
    ghost var was := a[..];
    var kept: map<string, nat> := map[];
    n := 0;
    for i := 0 to a.Length
      invariant n <= i && forall k :: i <= k < a.Length ==> a[k] == was[k]
      invariant a[..n] == Migrated(was[..i])
      invariant Indexes(kept, a[..n])
    {
      assert was[..i + 1] == was[..i] + [was[i]];
      QualifiedSnoc(was[..i], was[i]);
      var r := Keyed(a[i]);
      if r.Some? {
        n, kept := Keep(a, n, kept, r.value);
      }
    }
    assert was[..a.Length] == was;
  }

  lemma QualifiedSnoc(rs: seq<Record>, r: Record)
    ensures Qualified(rs + [r]) == if Keyed(r).Some? then Qualified(rs) + [Keyed(r).value] else Qualified(rs)
    ensures Keyed(r).Some? ==> Migrated(rs + [r]) == Add(Migrated(rs), JoinedKey, Keyed(r).value)
  {
    assert (rs + [r])[..|rs|] == rs;
  }
}
