/**
 The cursor table over its whole history: what its time stamps say about who set what
 when, and therefore whom a new key displaces.
 */
module CursorHistory {
  import opened CursorRecords
  import opened CursorMigration
  import opened CursorTable

  datatype Op = Put(agent: string, bus: string, cursor: string, now: int) | Forget(agent: string, bus: string)

  predicate Legal(op: Op) { op.bus != "" && NulFree(op.agent) }

  predicate Puts(op: Op, agent: string, bus: string) { op.Put? && op.agent == agent && op.bus == bus }

  function Applied(rs: seq<Record>, op: Op): seq<Record> {
    match op
    case Put(a, b, cursor, now) => Updated(rs, a, b, cursor, now)
    case Forget(a, b) => Cleared(rs, a, b)
  }

  function AfterOps(rs: seq<Record>, ops: seq<Op>): seq<Record> {
    if ops == [] then rs else Applied(AfterOps(rs, ops[..|ops| - 1]), ops[|ops| - 1])
  }

  /** The place of the last set of this key; -1 when there is none. */
  function LastPut(ops: seq<Op>, agent: string, bus: string): (k: int)
    ensures -1 <= k < |ops| && (0 <= k ==> Puts(ops[k], agent, bus))
    ensures forall j :: 0 <= j < |ops| && k < j ==> !Puts(ops[j], agent, bus)
  {
    if ops == [] then -1
    else if Puts(ops[|ops| - 1], agent, bus) then |ops| - 1
    else LastPut(ops[..|ops| - 1], agent, bus)
  }

  predicate Holds(rs: seq<Record>, agent: string, bus: string) { exists r :: r in rs && Matches(r, agent, bus) }

  /** When the key was last set: in this history, or else by what the table began with. */
  ghost function SetAt(began: seq<Record>, ops: seq<Op>, agent: string, bus: string): int {
    var k, i := LastPut(ops, agent, bus), Find(began, agent, bus);
    if 0 <= k then ops[k].now else if i < |began| then began[i].updated else 0
  }

  /** What was last set for the key. */
  ghost function SetTo(began: seq<Record>, ops: seq<Op>, agent: string, bus: string): string {
    var k := LastPut(ops, agent, bus);
    if 0 <= k then Shown(ops[k].cursor) else Lookup(began, agent, bus)
  }

  ghost predicate History(began: seq<Record>, ops: seq<Op>) {
    Table(began) && forall i :: 0 <= i < |ops| ==> Legal(ops[i])
  }

  lemma {:induction false} HistoryKeepsTable(began: seq<Record>, ops: seq<Op>)
    requires History(began, ops)
    ensures Table(AfterOps(began, ops))
  {
    if ops != [] {
      var init, op := ops[..|ops| - 1], ops[|ops| - 1];
      HistoryKeepsTable(began, init);
      match op
      case Put(a, b, cursor, now) => UpdatedKeepsTable(AfterOps(began, init), a, b, cursor, now);
      case Forget(a, b) => ClearForgets(AfterOps(began, init), a, b, a, b);
    }
  }

  /** Every stored record carries the time and the cursor of the last set of its key. */
  lemma {:induction false} StampedByLastSet(began: seq<Record>, ops: seq<Op>, r: Record)
    requires History(began, ops) && r in AfterOps(began, ops)
    ensures r.updated == SetAt(began, ops, r.agentId, r.busId)
    ensures Shown(r.cursor) == SetTo(began, ops, r.agentId, r.busId)
    ensures LastPut(ops, r.agentId, r.busId) < 0 ==> r in began
  {
    if ops == [] {
      var i :| 0 <= i < |began| && began[i] == r;
      assert Find(began, r.agentId, r.busId) == i;
      LookupMember(began, r);
    } else {
      var init, op := ops[..|ops| - 1], ops[|ops| - 1];
      var rs := AfterOps(began, init);
      HistoryKeepsTable(began, init);
      match op {
        case Put(a, b, cursor, now) => UpdatedMembers(rs, a, b, cursor, now, r);
        case Forget(a, b) => ClearedMembers(rs, a, b);
      }
      if !Puts(op, r.agentId, r.busId) { StampedByLastSet(began, init, r); }
    }
  }

  /** The look-up finds what was last set, for every key that is still there. */
  lemma LookupIsLastSet(began: seq<Record>, ops: seq<Op>, agent: string, bus: string)
    requires History(began, ops)
    ensures Lookup(AfterOps(began, ops), agent, bus) ==
            if Holds(AfterOps(began, ops), agent, bus) then SetTo(began, ops, agent, bus) else ""
  {
    var rs := AfterOps(began, ops);
    HistoryKeepsTable(began, ops);
    if Holds(rs, agent, bus) {
      var r :| r in rs && Matches(r, agent, bus);
      LookupMember(rs, r);
      StampedByLastSet(began, ops, r);
    } else {
      LookupAbsent(rs, agent, bus);
    }
  }

  /** The clock of the next set has not run behind the last set of any stored key. */
  ghost predicate ClockHolds(began: seq<Record>, ops: seq<Op>, now: int) {
    forall r :: r in AfterOps(began, ops) ==> SetAt(began, ops, r.agentId, r.busId) <= now
  }

  /**
   A new key in a full table displaces exactly one key, the least recently set one; among
   keys last set at the same instant, the one stored first.
   */
  lemma LeastRecentlySetGoes(began: seq<Record>, ops: seq<Op>, p: Op) returns (i: nat)
    requires History(began, ops) && p.Put? && Legal(p)
    requires |AfterOps(began, ops)| == MAX_STORED_CURSORS && !Holds(AfterOps(began, ops), p.agent, p.bus)
    requires ClockHolds(began, ops, p.now)
    ensures i < |AfterOps(began, ops)|
    ensures var rs, out := AfterOps(began, ops), AfterOps(began, ops + [p]);
            && (forall a, b :: Holds(out, a, b) <==>
                  (a, b) == (p.agent, p.bus) || (Holds(rs, a, b) && !Matches(rs[i], a, b)))
            && (forall j :: 0 <= j < |rs| ==>
                  var gone, kept := SetAt(began, ops, rs[i].agentId, rs[i].busId), SetAt(began, ops, rs[j].agentId, rs[j].busId);
                  if j < i then gone < kept else gone <= kept)
  {
    var rs, r := AfterOps(began, ops), Record(p.agent, p.bus, p.cursor, p.now);
    assert (ops + [p])[..|ops|] == ops;
    HistoryKeepsTable(began, ops);
    forall q | q in rs ensures q.updated == SetAt(began, ops, q.agentId, q.busId) { StampedByLastSet(began, ops, q); }
    assert Find(rs, p.agent, p.bus) == |rs|;
    i := OneGoes(rs, r);
    OneKeyGoes(rs, r, i, Evicted(rs + [r]));
  }

  /** The keys, when one record goes and one comes. */
  lemma OneKeyGoes(rs: seq<Record>, r: Record, i: nat, out: seq<Record>)
    requires OneEach(rs) && i < |rs| && !Holds(rs, r.agentId, r.busId)
    requires multiset(out) == multiset(rs) - multiset{rs[i]} + multiset{r}
    ensures forall a, b :: Holds(out, a, b) <==> (a, b) == (r.agentId, r.busId) || (Holds(rs, a, b) && !Matches(rs[i], a, b))
  {
    AtMostOnce(rs, rs[i]);
    forall q ensures q in out <==> q == r || (q in rs && q != rs[i]) {
      assert q in out <==> q in multiset(out);
      assert q in rs <==> q in multiset(rs);
    }
    forall a, b ensures Holds(out, a, b) <==> (a, b) == (r.agentId, r.busId) || (Holds(rs, a, b) && !Matches(rs[i], a, b)) {
      KeyStays(rs, r, i, out, a, b);
    }
  }

  lemma KeyStays(rs: seq<Record>, r: Record, i: nat, out: seq<Record>, a: string, b: string)
    requires OneEach(rs) && i < |rs| && !Holds(rs, r.agentId, r.busId)
    requires forall q :: q in out <==> q == r || (q in rs && q != rs[i])
    ensures Holds(out, a, b) <==> (a, b) == (r.agentId, r.busId) || (Holds(rs, a, b) && !Matches(rs[i], a, b))
  {
    assert r in out && Matches(r, r.agentId, r.busId);
    OneRecordPerKey(rs, rs[i], a, b);
    if Holds(rs, a, b) && !Matches(rs[i], a, b) {
      var q :| q in rs && Matches(q, a, b);
      assert q in out;
    }
  }

  lemma OneRecordPerKey(rs: seq<Record>, r: Record, agent: string, bus: string)
    requires OneEach(rs) && r in rs
    ensures Matches(r, agent, bus) ==> forall q :: q in rs && Matches(q, agent, bus) ==> q == r
  {
    forall q | q in rs && Matches(q, agent, bus) && Matches(r, agent, bus) ensures q == r {
      var i :| 0 <= i < |rs| && rs[i] == r;
      var j :| 0 <= j < |rs| && rs[j] == q;
    }
  }

  /** A position set strictly later than some other stored one survives the next new key, and is read back. */
  lemma RecentlySetSurvives(began: seq<Record>, ops: seq<Op>, p: Op, agent: string, bus: string, other: Record)
    requires History(began, ops) && p.Put? && Legal(p) && ClockHolds(began, ops, p.now)
    requires Holds(AfterOps(began, ops), agent, bus) && other in AfterOps(began, ops)
    requires SetAt(began, ops, other.agentId, other.busId) < SetAt(began, ops, agent, bus)
    requires !Puts(p, agent, bus)
    ensures Lookup(AfterOps(began, ops + [p]), agent, bus) == SetTo(began, ops, agent, bus)
  {
    var rs, out := AfterOps(began, ops), AfterOps(began, ops + [p]);
    assert (ops + [p])[..|ops|] == ops;
    HistoryKeepsTable(began, ops);
    assert forall k :: 0 <= k < |ops + [p]| ==> Legal((ops + [p])[k]);
    var mine :| mine in rs && Matches(mine, agent, bus);
    OthersKept(rs, p.agent, p.bus, p.cursor, p.now, mine);
    StampedByLastSet(began, ops, mine);
    if mine !in out {
      assert !Holds(rs, p.agent, p.bus);
      var i := LeastRecentlySetGoes(began, ops, p);
      var j :| 0 <= j < |rs| && rs[j] == other;
      assert Holds(out, agent, bus);
      var q :| q in out && Matches(q, agent, bus);
      UpdatedMembers(rs, p.agent, p.bus, p.cursor, p.now, q);
      OneRecordPerKey(rs, mine, agent, bus);
    }
  }

  /** A table of `n` agents, told apart by the length of their names, all last set at the same instant. */
  function Crowd(n: nat): (rs: seq<Record>)
    ensures |rs| == n
    ensures forall i :: 0 <= i < n ==> |rs[i].agentId| == i && rs[i].busId == "b" && rs[i].updated == 7 && NulFree(rs[i].agentId)
  {
    if n == 0 then [] else
    var init := Crowd(n - 1);
    if n == 1 then [Record("", "b", "c", 7)] else init + [Record(init[n - 2].agentId + "a", "b", "c", 7)]
  }

  /** Among keys that were all last set at one instant, a new key displaces the first of the table, whoever was set last. */
  lemma TieDisplacesTheFirst(began: seq<Record>, ops: seq<Op>, p: Op)
    requires History(began, ops) && p.Put? && Legal(p)
    requires |AfterOps(began, ops)| == MAX_STORED_CURSORS && !Holds(AfterOps(began, ops), p.agent, p.bus)
    requires forall r :: r in AfterOps(began, ops) ==> SetAt(began, ops, r.agentId, r.busId) == p.now
    ensures var first := AfterOps(began, ops)[0]; Lookup(AfterOps(began, ops + [p]), first.agentId, first.busId) == ""
  {
    var rs, out := AfterOps(began, ops), AfterOps(began, ops + [p]);
    var i := LeastRecentlySetGoes(began, ops, p);
    assert rs[0] in rs && rs[i] in rs;
    assert i == 0;
    assert !Holds(out, rs[0].agentId, rs[0].busId);
    LookupAbsent(out, rs[0].agentId, rs[0].busId);
  }

  /** The first agent of a full table, and then a newcomer, at the instant of all the others. */
  function Again(): seq<Op> { [Put("", "b", "d", 7)] }

  lemma CrowdAgain()
    ensures AfterOps(Crowd(MAX_STORED_CURSORS), Again()) == Crowd(MAX_STORED_CURSORS)[0 := Record("", "b", "d", 7)]
    ensures History(Crowd(MAX_STORED_CURSORS), Again())
  {
    assert Find(Crowd(MAX_STORED_CURSORS), "", "b") == 0;
    assert Again()[..0] == [];
    assert AfterOps(Crowd(MAX_STORED_CURSORS), Again()[..0]) == Crowd(MAX_STORED_CURSORS);
  }

  /**
   The clock must have moved on: with equal time stamps the position at the head of a full
   table is displaced although it was set a moment ago.
   */
  lemma TieDisplacesTheJustSet() returns (p: Op)
    ensures History(Crowd(MAX_STORED_CURSORS), Again()) && p.Put? && p.now == 7 && !Puts(p, "", "b")
    ensures Lookup(AfterOps(Crowd(MAX_STORED_CURSORS), Again()), "", "b") == "d"
    ensures Lookup(AfterOps(Crowd(MAX_STORED_CURSORS), Again() + [p]), "", "b") == ""
  {
    var began, rs := Crowd(MAX_STORED_CURSORS), AfterOps(Crowd(MAX_STORED_CURSORS), Again());
    CrowdAgain();
    p := Put(began[MAX_STORED_CURSORS - 1].agentId + "a", "b", "d", 7);
    assert Find(rs, "", "b") == 0;
    forall r | r in rs ensures SetAt(began, Again(), r.agentId, r.busId) == 7 { StampedByLastSet(began, Again(), r); }
    TieDisplacesTheFirst(began, Again(), p);
  }

  /** What an update of the file demands. */
  predicate Performs(op: Op) { Legal(op) && op.agent != "" && (op.Put? ==> |op.cursor| <= MAX_CURSOR_LEN) }

  method Perform(f: CursorFile, op: Op)
    requires f.Tidy() && Table(f.Loaded()) && Performs(op)
    modifies f
    ensures f.Tidy() && Table(f.Loaded()) && f.Loaded() == Applied(old(f.Loaded()), op)
  {
    ghost var rs := f.Loaded();
    var ok;
    match op {
      case Put(a, b, cursor, now) =>
        ok := f.SetCursor(a, b, cursor, now, true);
        UpdatedKeepsTable(rs, a, b, cursor, now);
      case Forget(a, b) =>
        ok := f.ClearCursor(a, b, true);
        ClearForgets(rs, a, b, a, b);
    }
    TableIsMigrated(f.records);
  }

  /** The file goes through the same history as the list, whether or not it could be read at first. */
  method Play(f: CursorFile, ops: seq<Op>)
    requires f.Tidy() && forall i :: 0 <= i < |ops| ==> Performs(ops[i])
    modifies f
    ensures f.Tidy() && f.Loaded() == AfterOps(old(f.Loaded()), ops)
  {
    ghost var began := f.Loaded();
    if f.readable { TableIsMigrated(f.records); }
    for i := 0 to |ops|
      invariant f.Tidy() && Table(f.Loaded()) && f.Loaded() == AfterOps(began, ops[..i])
    {
      assert ops[..i + 1][..i] == ops[..i];
      Perform(f, ops[i]);
    }
    assert ops[..|ops|] == ops;
  }
}
