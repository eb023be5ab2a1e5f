/**
 The bounded table of read positions: look up, set, clear, evict.

 `Lookup`, `Updated` and `Cleared` state the operations on the list of records;
 `CursorFile` is the file they act on, migrated at every load.
 */
module CursorTable {
  import opened Common
  import opened CursorRecords
  import opened CursorMigration

  const MAX_STORED_CURSORS := 256

  predicate Matches(r: Record, agent: string, bus: string) { r.agentId == agent && r.busId == bus }

  /** A stored cursor that is not a well-formed token counts as none. */
  function Shown(cursor: string): string { if LegalCursor(cursor) then cursor else "" }

  function Find(rs: seq<Record>, agent: string, bus: string): (i: nat)
    ensures i <= |rs| && (i < |rs| ==> Matches(rs[i], agent, bus))
    ensures forall j :: 0 <= j < i ==> !Matches(rs[j], agent, bus)
  {
    if rs == [] || Matches(rs[0], agent, bus) then 0 else 1 + Find(rs[1..], agent, bus)
  }

  function Lookup(rs: seq<Record>, agent: string, bus: string): string {
    var i := Find(rs, agent, bus);
    if i < |rs| then Shown(rs[i].cursor) else ""
  }

  // ----- Eviction ------------------------------------------------------------

  function InsertByTime(s: seq<Record>, r: Record): seq<Record> {
    if s == [] || s[|s| - 1].updated <= r.updated then s + [r]
    else InsertByTime(s[..|s| - 1], r) + [s[|s| - 1]]
  }

  /** Ascending by time, equal times in their original order. */
  function ByTime(rs: seq<Record>): seq<Record> {
    if rs == [] then [] else InsertByTime(ByTime(rs[..|rs| - 1]), rs[|rs| - 1])
  }

  function Evicted(rs: seq<Record>): seq<Record> {
    var s := ByTime(rs);
    if |rs| <= MAX_STORED_CURSORS || |s| < MAX_STORED_CURSORS then rs else s[|s| - MAX_STORED_CURSORS..]
  }

  ghost predicate InTimeOrder(s: seq<Record>) {
    forall i, j :: 0 <= i < j < |s| ==> s[i].updated <= s[j].updated
  }

  lemma {:induction false} InsertByTimeKeeps(s: seq<Record>, r: Record)
    ensures multiset(InsertByTime(s, r)) == multiset(s) + multiset{r} && |InsertByTime(s, r)| == |s| + 1
  {
    if s != [] && s[|s| - 1].updated > r.updated {
      InsertByTimeKeeps(s[..|s| - 1], r);
      assert s == s[..|s| - 1] + [s[|s| - 1]];
    }
  }

  lemma {:induction false} InsertByTimeOrder(s: seq<Record>, r: Record)
    requires InTimeOrder(s)
    ensures InTimeOrder(InsertByTime(s, r))
    ensures forall x :: x in InsertByTime(s, r) ==> x in s || x == r
  {
    if s != [] && s[|s| - 1].updated > r.updated {
      InsertByTimeOrder(s[..|s| - 1], r);
      var t := InsertByTime(s[..|s| - 1], r);
      forall i | 0 <= i < |t| ensures t[i].updated <= s[|s| - 1].updated { assert t[i] in t; }
    }
  }

  /** A new record goes first exactly when it is older than all the others. */
  lemma {:induction false} InsertByTimeHead(s: seq<Record>, r: Record)
    requires InTimeOrder(s) && s != []
    ensures InsertByTime(s, r) == (if s[0].updated <= r.updated then [s[0]] + InsertByTime(s[1..], r) else [r] + s)
  {
    var init := s[..|s| - 1];
    if s[|s| - 1].updated > r.updated {
      if init != [] {
        InsertByTimeHead(init, r);
        assert s[1..][..|s| - 2] == init[1..];
      } else {
        assert InsertByTime(init, r) == [r];
      }
      assert s == init + [s[|s| - 1]];
    }
  }

  lemma {:induction false} ByTimeOrder(rs: seq<Record>)
    ensures InTimeOrder(ByTime(rs))
  {
    if rs != [] {
      ByTimeOrder(rs[..|rs| - 1]);
      InsertByTimeOrder(ByTime(rs[..|rs| - 1]), rs[|rs| - 1]);
    }
  }

  lemma {:induction false} ByTimeKeeps(rs: seq<Record>)
    ensures multiset(ByTime(rs)) == multiset(rs) && |ByTime(rs)| == |rs|
  {
    if rs != [] {
      ByTimeKeeps(rs[..|rs| - 1]);
      InsertByTimeKeeps(ByTime(rs[..|rs| - 1]), rs[|rs| - 1]);
      assert rs == rs[..|rs| - 1] + [rs[|rs| - 1]];
    }
  }

  lemma ByTimeSpec(rs: seq<Record>)
    ensures InTimeOrder(ByTime(rs)) && multiset(ByTime(rs)) == multiset(rs) && |ByTime(rs)| == |rs|
  {
    ByTimeOrder(rs);
    ByTimeKeeps(rs);
  }

  /** Exactly the surplus goes, and nothing that goes is newer than anything that stays. */
  lemma EvictsTheOldest(rs: seq<Record>)
    ensures |Evicted(rs)| == if |rs| <= MAX_STORED_CURSORS then |rs| else MAX_STORED_CURSORS
    ensures exists gone: seq<Record> ::
              && multiset(gone) + multiset(Evicted(rs)) == multiset(rs)
              && forall g, k :: g in gone && k in Evicted(rs) ==> g.updated <= k.updated
  {
    ByTimeSpec(rs);
    var s := ByTime(rs);
    if |rs| <= MAX_STORED_CURSORS {
      var gone: seq<Record> := [];
      assert multiset(gone) + multiset(Evicted(rs)) == multiset(rs);
    } else {
      var n := |s| - MAX_STORED_CURSORS;
      var gone := s[..n];
      assert s == gone + s[n..];
      forall g, k | g in gone && k in s[n..] ensures g.updated <= k.updated {
        var i :| 0 <= i < n && s[i] == g;
        var j :| 0 <= j < |s| - n && s[n..][j] == k;
        assert s[n + j] == k;
      }
    }
  }

  // ----- The operations on the list ------------------------------------------

  function Updated(rs: seq<Record>, agent: string, bus: string, cursor: string, now: int): seq<Record> {
    var i, r := Find(rs, agent, bus), Record(agent, bus, cursor, now);
    if i < |rs| then rs[i := r] else Evicted(rs + [r])
  }

  function Cleared(rs: seq<Record>, agent: string, bus: string): seq<Record> {
    if rs == [] then [] else
    var init := Cleared(rs[..|rs| - 1], agent, bus);
    if Matches(rs[|rs| - 1], agent, bus) then init else init + [rs[|rs| - 1]]
  }

  ghost predicate OneEach(rs: seq<Record>) {
    forall i, j :: 0 <= i < j < |rs| ==> !Matches(rs[j], rs[i].agentId, rs[i].busId)
  }

  lemma LookupMember(rs: seq<Record>, r: Record)
    requires OneEach(rs) && r in rs
    ensures Lookup(rs, r.agentId, r.busId) == Shown(r.cursor)
  {
    var i :| 0 <= i < |rs| && rs[i] == r;
    assert Find(rs, r.agentId, r.busId) == i;
  }

  lemma OneEachOfPart(rs: seq<Record>, part: seq<Record>)
    requires OneEach(rs) && multiset(part) <= multiset(rs)
    ensures OneEach(part)
  {
    forall i, j | 0 <= i < j < |part| ensures !Matches(part[j], part[i].agentId, part[i].busId) {
      AtMostOnce(rs, part[i]);
      if part[i] == part[j] { OccursTwice(part, i, j); }
      assert part[i] in multiset(part) && part[j] in multiset(part);
      var a :| 0 <= a < |rs| && rs[a] == part[i];
      var b :| 0 <= b < |rs| && rs[b] == part[j];
    }
  }

  lemma {:induction false} AtMostOnce(rs: seq<Record>, r: Record)
    requires OneEach(rs)
    ensures multiset(rs)[r] <= 1
  {
    if rs != [] {
      var init, last := rs[..|rs| - 1], rs[|rs| - 1];
      assert rs == init + [last];
      AtMostOnce(init, r);
      assert last !in init;
    }
  }

  lemma LookupAbsent(rs: seq<Record>, agent: string, bus: string)
    requires forall r :: r in rs ==> !Matches(r, agent, bus)
    ensures Lookup(rs, agent, bus) == ""
  {
  }

  /** A table as the operations keep it. */
  ghost predicate Table(rs: seq<Record>) {
    && OneEach(rs)
    && |rs| <= MAX_STORED_CURSORS
    && forall i :: 0 <= i < |rs| ==> rs[i].busId != "" && NulFree(rs[i].agentId)
  }

  lemma EvictedPart(rs: seq<Record>)
    ensures multiset(Evicted(rs)) <= multiset(rs)
    ensures forall r :: r in Evicted(rs) ==> r in rs
  {
    ByTimeSpec(rs);
    var s := ByTime(rs);
    if |rs| > MAX_STORED_CURSORS { assert s == s[..|s| - MAX_STORED_CURSORS] + Evicted(rs); }
    forall r | r in Evicted(rs) ensures r in rs { assert r in multiset(Evicted(rs)); }
  }

  /** Setting a position keeps the table a table, whatever the clock says. */
  lemma UpdatedKeepsTable(rs: seq<Record>, agent: string, bus: string, cursor: string, now: int)
    requires Table(rs) && bus != "" && NulFree(agent)
    ensures Table(Updated(rs, agent, bus, cursor, now))
  {
    var all := rs + [Record(agent, bus, cursor, now)];
    if Find(rs, agent, bus) == |rs| {
      EvictsTheOldest(all);
      EvictedPart(all);
      OneEachOfPart(all, Evicted(all));
      forall i | 0 <= i < |Evicted(all)| ensures Evicted(all)[i].busId != "" && NulFree(Evicted(all)[i].agentId) {
        assert Evicted(all)[i] in all;
      }
    }
  }

  /** With one record too many, the head of the time order goes. */
  lemma EvictedOne(rs: seq<Record>, r: Record)
    requires |rs| == MAX_STORED_CURSORS
    ensures Evicted(rs + [r]) == InsertByTime(ByTime(rs), r)[1..]
    ensures InTimeOrder(ByTime(rs)) && |ByTime(rs)| == |rs| && multiset(ByTime(rs)) == multiset(rs)
  {
    ByTimeSpec(rs);
    InsertByTimeKeeps(ByTime(rs), r);
    assert (rs + [r])[..|rs|] == rs;
  }

  lemma InsertByTimeFirst(s: seq<Record>, r: Record)
    requires InTimeOrder(s)
    ensures |InsertByTime(s, r)| == |s| + 1
    ensures InsertByTime(s, r)[0] == if s == [] || r.updated < s[0].updated then r else s[0]
  {
    InsertByTimeKeeps(s, r);
    if s != [] { InsertByTimeHead(s, r); }
  }

  /** The oldest record, and among equally old ones the first of the list. */
  function OldestAt(rs: seq<Record>): (i: nat)
    requires rs != []
    ensures i < |rs|
    ensures forall j :: 0 <= j < i ==> rs[j].updated > rs[i].updated
    ensures forall j :: i <= j < |rs| ==> rs[j].updated >= rs[i].updated
  {
    var last := |rs| - 1;
    if last == 0 then 0
    else
      var i := OldestAt(rs[..last]);
      assert forall j :: 0 <= j < last ==> rs[..last][j] == rs[j];
      if rs[last].updated < rs[i].updated then last else i
  }

  lemma {:induction false} ByTimeHead(rs: seq<Record>)
    requires rs != []
    ensures ByTime(rs) != [] && ByTime(rs)[0] == rs[OldestAt(rs)]
  {
    var init := rs[..|rs| - 1];
    ByTimeOrder(init);
    InsertByTimeFirst(ByTime(init), rs[|rs| - 1]);
    if init != [] { ByTimeHead(init); }
  }

  lemma TailSwapped(s: seq<Record>, r: Record)
    requires InTimeOrder(s) && s != [] && s[0].updated <= r.updated
    ensures multiset(InsertByTime(s, r)[1..]) == multiset(s) - multiset{s[0]} + multiset{r}
  {
    InsertByTimeHead(s, r);
    InsertByTimeKeeps(s[1..], r);
    assert s == [s[0]] + s[1..];
  }

  /** A new key in a full table, under a clock that does not run backwards, costs exactly the first of the oldest records. */
  lemma OneGoes(rs: seq<Record>, r: Record) returns (i: nat)
    requires |rs| == MAX_STORED_CURSORS && forall q :: q in rs ==> q.updated <= r.updated
    ensures i < |rs| && multiset(Evicted(rs + [r])) == multiset(rs) - multiset{rs[i]} + multiset{r}
    ensures forall j :: 0 <= j < i ==> rs[j].updated > rs[i].updated
    ensures forall j :: i <= j < |rs| ==> rs[j].updated >= rs[i].updated
  {
    EvictedOne(rs, r);
    ByTimeHead(rs);
    i := OldestAt(rs);
    assert ByTime(rs)[0] in ByTime(rs);
    TailSwapped(ByTime(rs), r);
  }

  lemma HeadDropped(s: seq<Record>, r: Record)
    requires InTimeOrder(s) && s != [] && r !in s
    ensures r in InsertByTime(s, r)[1..] <==> s[0].updated <= r.updated
  {
    InsertByTimeHead(s, r);
    if s[0].updated <= r.updated {
      InsertByTimeKeeps(s[1..], r);
      assert r in multiset(InsertByTime(s[1..], r));
    }
  }

  lemma HeadIsOldest(rs: seq<Record>, s: seq<Record>, t: int)
    requires InTimeOrder(s) && multiset(s) == multiset(rs) && s != []
    ensures s[0].updated <= t <==> exists q :: q in rs && q.updated <= t
  {
    assert s[0] in multiset(rs);
    forall q | q in rs ensures s[0].updated <= q.updated {
      assert q in multiset(s);
      var i :| 0 <= i < |s| && s[i] == q;
    }
  }

  /** The new record survives its own eviction exactly when there was room or some record is not newer. */
  lemma NewRecordStays(rs: seq<Record>, r: Record)
    requires |rs| <= MAX_STORED_CURSORS && r !in rs
    ensures r in Evicted(rs + [r]) <==> |rs| < MAX_STORED_CURSORS || exists q :: q in rs && q.updated <= r.updated
  {
    if |rs| == MAX_STORED_CURSORS {
      EvictedOne(rs, r);
      var s := ByTime(rs);
      assert r in s <==> r in multiset(s);
      assert r !in multiset(rs);
      HeadDropped(s, r);
      HeadIsOldest(rs, s, r.updated);
    } else {
      assert (rs + [r])[|rs|] == r;
    }
  }

  lemma ReadBackNew(rs: seq<Record>, r: Record, out: seq<Record>)
    requires OneEach(rs) && Find(rs, r.agentId, r.busId) == |rs| && LegalCursor(r.cursor)
    requires out == Evicted(rs + [r])
    ensures Lookup(out, r.agentId, r.busId) == r.cursor <==> r in out
  {
    EvictedPart(rs + [r]);
    OneEachOfPart(rs + [r], out);
    if r in out {
      LookupMember(out, r);
    } else {
      forall q | q in out ensures !Matches(q, r.agentId, r.busId) { assert q in rs + [r]; }
      LookupAbsent(out, r.agentId, r.busId);
    }
  }

  /**
   What was set is read back if and only if the key was already there, or there was
   room, or some stored position is not newer than the clock.
   */
  lemma ReadBack(rs: seq<Record>, agent: string, bus: string, cursor: string, now: int)
    requires Table(rs) && LegalCursor(cursor)
    ensures Lookup(Updated(rs, agent, bus, cursor, now), agent, bus) == cursor <==>
            || Find(rs, agent, bus) < |rs|
            || |rs| < MAX_STORED_CURSORS
            || exists r :: r in rs && r.updated <= now
  {
    var i, r := Find(rs, agent, bus), Record(agent, bus, cursor, now);
    var out := Updated(rs, agent, bus, cursor, now);
    if i < |rs| {
      assert OneEach(out);
      LookupMember(out, out[i]);
    } else {
      assert r !in rs;
      NewRecordStays(rs, r);
      ReadBackNew(rs, r, out);
    }
  }

  /** Every other position reads as before, unless its record was evicted as the oldest. */
  lemma OthersKept(rs: seq<Record>, agent: string, bus: string, cursor: string, now: int, other: Record)
    requires Table(rs) && other in rs && !Matches(other, agent, bus)
    ensures var out := Updated(rs, agent, bus, cursor, now);
            if other in out then Lookup(out, other.agentId, other.busId) == Shown(other.cursor)
            else Find(rs, agent, bus) == |rs| == MAX_STORED_CURSORS && forall k :: k in out ==> other.updated <= k.updated
  {
    var r := Record(agent, bus, cursor, now);
    var out, i := Updated(rs, agent, bus, cursor, now), Find(rs, agent, bus);
    var a :| 0 <= a < |rs| && rs[a] == other;
    if i < |rs| {
      assert OneEach(out) && out[a] == other;
      LookupMember(out, other);
    } else {
      EvictedPart(rs + [r]);
      OneEachOfPart(rs + [r], out);
      assert (rs + [r])[a] == other;
      if other in out { LookupMember(out, other); } else { GoneIsOldest(rs + [r], other); }
    }
  }

  lemma GoneIsOldest(all: seq<Record>, gone: Record)
    requires gone in all && gone !in Evicted(all)
    ensures |all| > MAX_STORED_CURSORS && forall k :: k in Evicted(all) ==> gone.updated <= k.updated
  {
    EvictsTheOldest(all);
    var dropped: seq<Record> :|
      && multiset(dropped) + multiset(Evicted(all)) == multiset(all)
      && forall g, k :: g in dropped && k in Evicted(all) ==> g.updated <= k.updated;
    assert gone in multiset(all) && gone !in multiset(Evicted(all));
    assert gone in dropped;
  }

  lemma {:induction false} ClearedMembers(rs: seq<Record>, agent: string, bus: string)
    ensures forall r :: r in Cleared(rs, agent, bus) <==> r in rs && !Matches(r, agent, bus)
    ensures multiset(Cleared(rs, agent, bus)) <= multiset(rs) && |Cleared(rs, agent, bus)| <= |rs|
  {
    if rs != [] {
      ClearedMembers(rs[..|rs| - 1], agent, bus);
      assert rs == rs[..|rs| - 1] + [rs[|rs| - 1]];
    }
  }

  /** Clearing forgets that position and no other. */
  lemma ClearForgets(rs: seq<Record>, agent: string, bus: string, a: string, b: string)
    requires Table(rs)
    ensures Table(Cleared(rs, agent, bus))
    ensures Lookup(Cleared(rs, agent, bus), a, b) == if (a, b) == (agent, bus) then "" else Lookup(rs, a, b)
  {
    var out := Cleared(rs, agent, bus);
    ClearedMembers(rs, agent, bus);
    OneEachOfPart(rs, out);
    forall i | 0 <= i < |out| ensures out[i].busId != "" && NulFree(out[i].agentId) { assert out[i] in rs; }
    var i := Find(rs, a, b);
    if i < |rs| && (a, b) != (agent, bus) {
      assert rs[i] in out;
      LookupMember(out, rs[i]);
    } else {
      forall r | r in out ensures !Matches(r, a, b) { assert r in rs; }
      LookupAbsent(out, a, b);
    }
  }

  /** Loading a table again changes nothing. */
  lemma TableIsMigrated(rs: seq<Record>)
    requires Table(rs)
    ensures Migrated(rs) == rs
  {
    QualifiedOfQualified(rs);
    forall i, j | 0 <= i < j < |rs| ensures JoinedKey(rs[i]) != JoinedKey(rs[j]) {
      if JoinedKey(rs[i]) == JoinedKey(rs[j]) { NulFreeJoin(rs[i], rs[j]); }
    }
    CollapseOfUnique(rs, JoinedKey);
  }

  /** The records after a set: the new one, and records of other keys as they were. */
  lemma UpdatedMembers(rs: seq<Record>, agent: string, bus: string, cursor: string, now: int, q: Record)
    requires Table(rs) && q in Updated(rs, agent, bus, cursor, now)
    ensures q == Record(agent, bus, cursor, now) || (q in rs && !Matches(q, agent, bus))
  {
    var i, out := Find(rs, agent, bus), Updated(rs, agent, bus, cursor, now);
    if i == |rs| {
      EvictedPart(rs + [Record(agent, bus, cursor, now)]);
    } else {
      var j :| 0 <= j < |out| && out[j] == q;
      assert j != i ==> !Matches(rs[j], rs[i].agentId, rs[i].busId) || j < i;
    }
  }

  /** After a set, its own key shows the new cursor or nothing, and every other key what it showed or nothing. */
  lemma UpdatedLookup(rs: seq<Record>, agent: string, bus: string, cursor: string, now: int, a: string, b: string)
    requires Table(rs) && bus != "" && NulFree(agent)
    ensures var found := Lookup(Updated(rs, agent, bus, cursor, now), a, b);
            found == "" || found == if (a, b) == (agent, bus) then Shown(cursor) else Lookup(rs, a, b)
  {
    var r, out := Record(agent, bus, cursor, now), Updated(rs, agent, bus, cursor, now);
    UpdatedKeepsTable(rs, agent, bus, cursor, now);
    var i := Find(out, a, b);
    if i < |out| {
      if Find(rs, agent, bus) == |rs| { EvictedPart(rs + [r]); }
      assert out[i] in out;
      assert out[i] == r || out[i] in rs;
      if out[i] != r || (a, b) != (agent, bus) { LookupMember(rs, out[i]); }
    }
  }

  // ----- The file ------------------------------------------------------------

  class CursorFile {
    var records: seq<Record>
    var readable: bool        // false: damaged, or of another format version

    constructor (records: seq<Record>, readable: bool)
      ensures this.records == records && this.readable == readable
    {
      this.records, this.readable := records, readable;
    }

    /** A file this build wrote, or one it cannot read. */
    ghost predicate Tidy() reads this { readable ==> Table(records) }

    method Damage()
      modifies this
      ensures Tidy() && !readable
    {
      readable := false;
    }

    /** What a load yields: the migrated records, or nothing usable. */
    function Loaded(): seq<Record> reads this { if readable then Migrated(records) else [] }

    method Load() returns (rs: seq<Record>)
      ensures rs == Loaded()
    {
      if !readable { return []; }
      var a := new Record[|records|](i requires 0 <= i < |records| reads this => records[i]);
      assert a[..] == records;
      var n := Migrate(a);
      return a[..n];
    }

    /** Never fails because of the file's contents: damage reads as no position. */
    method Cursor(agent: string, bus: string) returns (r: Result<string, ()>)
      ensures r == if agent == "" || bus == "" then Err(()) else Ok(Lookup(Loaded(), agent, bus))
    {
      if agent == "" || bus == "" { return Err(()); }
      var rs := Load();
      for i := 0 to |rs|
        invariant forall j :: 0 <= j < i ==> !Matches(rs[j], agent, bus)
      {
        if !Matches(rs[i], agent, bus) { continue; }
        assert Find(rs, agent, bus) == i;
        if |rs[i].cursor| > MAX_CURSOR_LEN { return Ok(""); }
        if rs[i].cursor != "" && !LegalCursor(rs[i].cursor) { return Ok(""); }
        return Ok(rs[i].cursor);
      }
      return Ok("");
    }

    /** `saved` is whether the write of the document succeeds. */
    method SetCursor(agent: string, bus: string, cursor: string, now: int, saved: bool) returns (ok: bool)
      modifies this
      ensures ok <==> agent != "" && bus != "" && |cursor| <= MAX_CURSOR_LEN && saved
      ensures ok ==> readable && records == Updated(old(Loaded()), agent, bus, cursor, now)
      ensures !ok ==> records == old(records) && readable == old(readable)
    {
      if agent == "" || bus == "" || |cursor| > MAX_CURSOR_LEN || !saved { return false; }
      var rs := Load();
      var i := 0;
      while i < |rs| && !Matches(rs[i], agent, bus)
        invariant 0 <= i <= |rs| && forall j :: 0 <= j < i ==> !Matches(rs[j], agent, bus)
      {
        i := i + 1;
      }
      assert i == Find(rs, agent, bus);
      if i < |rs| {
        rs := rs[i := rs[i].(cursor := cursor, updated := now)];
      } else {
        rs := Evicted(rs + [Record(agent, bus, cursor, now)]);
      }
      records, readable := rs, true;
      return true;
    }

    /** Keeps every record of another key, in order. */
    method ClearCursor(agent: string, bus: string, saved: bool) returns (ok: bool)
      modifies this
      ensures ok <==> agent != "" && bus != "" && saved
      ensures ok ==> readable && records == Cleared(old(Loaded()), agent, bus)
      ensures !ok ==> records == old(records) && readable == old(readable)
    {
      if agent == "" || bus == "" || !saved { return false; }
      var rs := Load();
      var out: seq<Record> := [];
      for i := 0 to |rs|
        invariant out == Cleared(rs[..i], agent, bus)
      {
        assert rs[..i + 1][..i] == rs[..i];
        if !Matches(rs[i], agent, bus) { out := out + [rs[i]]; }
      }
      assert rs[..|rs|] == rs;
      records, readable := out, true;
      return true;
    }
  }

  /** A set followed by a look-up, in any process, on a table: the clock condition decides. */
  method SetThenRead(f: CursorFile, agent: string, bus: string, cursor: string, now: int) returns (r: string)
    requires Table(f.records) && agent != "" && bus != "" && NulFree(agent) && LegalCursor(cursor)
    modifies f
    ensures Table(f.records)
    ensures old(f.readable) && (forall q :: q in old(f.records) ==> q.updated <= now) ==> r == cursor
    ensures !old(f.readable) ==> r == cursor
  {
    ghost var rs := f.Loaded();
    TableIsMigrated(f.records);
    assert Table(rs);
    var ok := f.SetCursor(agent, bus, cursor, now, true);
    UpdatedKeepsTable(rs, agent, bus, cursor, now);
    TableIsMigrated(f.records);
    ReadBack(rs, agent, bus, cursor, now);
    if |rs| == MAX_STORED_CURSORS && old(f.readable) && (forall q :: q in old(f.records) ==> q.updated <= now) {
      assert rs[0] in rs;
    }
    var found := f.Cursor(agent, bus);
    r := found.value;
  }
}
