/**
 The lock file and the read-modify-write it protects, as a step machine.

 Every file operation is a step of its own: the exclusive create, the write of
 the token, the staleness stat, the two reads of the token and the unlink. Any
 number of processes interleave and crash. Two things are assumed, and each is
 named: no live owner outlives `LOCK_STALE_AFTER` (the guard of `Tick`), and a
 stale break removes a file that is still stale (`Undisturbed`).
 */
module StoreLock {
  import opened Common

  const LOCK_STALE_AFTER := 30_000    // milliseconds

  /** `ticket` stands for the random token, unique per acquisition; `written` is false until it is in the file. */
  datatype LockFile = LockFile(ticket: nat, written: bool, mtime: nat) {
    function Content(): Option<nat> { if written then Some(ticket) else None }
  }

  /** Where a process stands. The last five phases are the owner's. */
  datatype Phase<D> =
    | Waiting
    | SawStale
    | Read(content: Option<nat>)
    | Matched
    | Created
    | Holding
    | Loaded(doc: D)
    | Finished
    | Releasing

  datatype Process<D> = Process(phase: Phase<D>, ticket: nat, since: nat) {
    predicate Owner() {
      phase.Created? || phase.Holding? || phase.Loaded? || phase.Finished? || phase.Releasing?
    }
  }

  /** One saved mutation, with the acquisition it was made under. */
  datatype Commit<!D> = Commit(ticket: nat, effect: D -> D)

  datatype State<!D> = State(
    now: nat,
    lock: Option<LockFile>,
    doc: D,
    processes: map<nat, Process<D>>,
    tickets: nat,
    commits: seq<Commit<D>>)

  datatype Event<!D> =
    | Tick(elapsed: nat)
    | Start(p: nat)
    | Create(p: nat)
    | Write(p: nat)
    | WriteFails(p: nat)
    | Stat(p: nat)
    | ReadToken(p: nat)
    | Match(p: nat)
    | Unlink(p: nat)
    | Load(p: nat)
    | Save(p: nat, effect: D -> D)
    | Abandon(p: nat)
    | CheckOwn(p: nat)
    | UnlinkOwn(p: nat)
    | Stop(p: nat)

  predicate Stale(f: LockFile, now: nat) { now - f.mtime > LOCK_STALE_AFTER }

  ghost predicate Enabled<D(!new)>(s: State<D>, e: Event<D>) {
    match e
    case Tick(elapsed) =>
      forall p :: p in s.processes && s.processes[p].Owner() ==>
                    s.now + elapsed - s.processes[p].since <= LOCK_STALE_AFTER
    case Start(p) => p !in s.processes
    case Create(p) => p in s.processes && s.processes[p].phase.Waiting? && s.lock.None?
    case Write(p) => p in s.processes && s.processes[p].phase.Created?
    case WriteFails(p) => p in s.processes && s.processes[p].phase.Created?
    case Stat(p) => p in s.processes && s.processes[p].phase.Waiting? && s.lock.Some? && Stale(s.lock.value, s.now)
    case ReadToken(p) => p in s.processes && s.processes[p].phase.SawStale?
    case Match(p) => p in s.processes && s.processes[p].phase.Read?
    case Unlink(p) => p in s.processes && s.processes[p].phase.Matched?
    case Load(p) => p in s.processes && s.processes[p].phase.Holding?
    case Save(p, _) => p in s.processes && s.processes[p].phase.Loaded?
    case Abandon(p) => p in s.processes && (s.processes[p].phase.Holding? || s.processes[p].phase.Loaded?)
    case CheckOwn(p) => p in s.processes && s.processes[p].phase.Finished?
    case UnlinkOwn(p) => p in s.processes && s.processes[p].phase.Releasing?
    case Stop(p) => p in s.processes
  }

  function To<D>(s: State<D>, p: nat, phase: Phase<D>): State<D>
    requires p in s.processes
  {
    s.(processes := s.processes[p := s.processes[p].(phase := phase)])
  }

  function Without<D>(s: State<D>, p: nat): State<D> { s.(processes := s.processes - {p}) }

  ghost function Step<D(!new)>(s: State<D>, e: Event<D>): State<D>
    requires Enabled(s, e)
  {
    match e
    case Tick(elapsed) => s.(now := s.now + elapsed)
    case Start(p) => s.(processes := s.processes[p := Process(Waiting, 0, 0)])
    case Create(p) =>
      s.(lock := Some(LockFile(s.tickets, false, s.now)),
         processes := s.processes[p := Process(Created, s.tickets, s.now)],
         tickets := s.tickets + 1)
    case Write(p) =>
      // The handle is the creator's own file, which the path may no longer name.
      var mine := s.lock.Some? && s.lock.value.ticket == s.processes[p].ticket;
      To(if mine then s.(lock := Some(s.lock.value.(written := true, mtime := s.now))) else s, p, Holding)
    case WriteFails(p) => Without(s.(lock := None), p)
    case Stat(p) => To(s, p, SawStale)
    case ReadToken(p) => if s.lock.Some? then To(s, p, Read(s.lock.value.Content())) else To(s, p, Waiting)
    case Match(p) =>
      if s.lock.Some? && s.lock.value.Content() == s.processes[p].phase.content then To(s, p, Matched)
      else To(s, p, Waiting)
    case Unlink(p) => To(s.(lock := None), p, Waiting)
    case Load(p) => To(s, p, Loaded(s.doc))
    case Save(p, effect) =>
      To(s.(doc := effect(s.processes[p].phase.doc),
            commits := s.commits + [Commit(s.processes[p].ticket, effect)]),
         p, Finished)
    case Abandon(p) => To(s, p, Finished)
    case CheckOwn(p) =>
      if s.lock.Some? && s.lock.value.Content() == Some(s.processes[p].ticket) then To(s, p, Releasing)
      else Without(s, p)
    case UnlinkOwn(p) => Without(s.(lock := None), p)
    case Stop(p) => Without(s, p)
  }

  ghost predicate Possible<D(!new)>(s: State<D>, run: seq<Event<D>>)
    decreases |run|, 0
  {
    run == [] || (Possible(s, run[..|run| - 1]) && Enabled(After(s, run[..|run| - 1]), run[|run| - 1]))
  }

  ghost function After<D(!new)>(s: State<D>, run: seq<Event<D>>): State<D>
    requires Possible(s, run)
    decreases |run|, 1
  {
    if run == [] then s else Step(After(s, run[..|run| - 1]), run[|run| - 1])
  }

  function Initial<D>(doc: D): State<D> { State(0, None, doc, map[], 0, []) }

  /** An unlink that breaks a lock removes one that is stale at that moment. */
  ghost predicate Undisturbed<D(!new)>(s: State<D>, e: Event<D>) {
    e.Unlink? && s.lock.Some? ==> Stale(s.lock.value, s.now)
  }

  ghost predicate UndisturbedRun<D(!new)>(s: State<D>, run: seq<Event<D>>)
    requires Possible(s, run)
  {
    run == [] ||
    (UndisturbedRun(s, run[..|run| - 1]) && Undisturbed(After(s, run[..|run| - 1]), run[|run| - 1]))
  }

  /** The saved mutations, one after the other. */
  ghost function Applied<D>(doc: D, commits: seq<Commit<D>>): D {
    if commits == [] then doc else commits[|commits| - 1].effect(Applied(doc, commits[..|commits| - 1]))
  }

  // ----- The invariant -------------------------------------------------------

  /** What holds of a process that owns the lock. */
  ghost predicate Owns<D(!new)>(s: State<D>, q: Process<D>) {
    && s.lock.Some?
    && s.lock.value.ticket == q.ticket
    && q.since <= s.lock.value.mtime
    && s.now - q.since <= LOCK_STALE_AFTER
    && (q.phase.Created? || s.lock.value.written)
    && (q.phase.Loaded? ==> q.phase.doc == s.doc)
    && (q.phase.Finished? || q.phase.Releasing? || CommitsBefore(s.commits, q.ticket))
  }

  ghost predicate CommitsBefore<D(!new)>(commits: seq<Commit<D>>, ticket: nat) {
    forall i :: 0 <= i < |commits| ==> commits[i].ticket < ticket
  }

  ghost predicate Ordered<D(!new)>(commits: seq<Commit<D>>) {
    forall i, j :: 0 <= i < j < |commits| ==> commits[i].ticket < commits[j].ticket
  }

  ghost predicate Exclusive<D(!new)>(s: State<D>) {
    forall p, q :: p in s.processes && q in s.processes && s.processes[p].Owner() && s.processes[q].Owner() ==> p == q
  }

  ghost predicate Inv<D(!new)>(doc: D, s: State<D>) {
    && (forall p :: p in s.processes && s.processes[p].Owner() ==> Owns(s, s.processes[p]))
    && Exclusive(s)
    && (s.lock.Some? ==> s.lock.value.ticket < s.tickets && s.lock.value.mtime <= s.now)
    && CommitsBefore(s.commits, s.tickets)
    && Ordered(s.commits)
    && s.doc == Applied(doc, s.commits)
  }

  lemma SaveKeeps<D(!new)>(doc: D, s: State<D>, p: nat, effect: D -> D)
    requires Inv(doc, s) && Enabled(s, Save(p, effect))
    ensures Inv(doc, Step(s, Save(p, effect)))
  {
    var s' := Step(s, Save(p, effect));
    assert s.processes[p].Owner();
    assert s'.commits[..|s'.commits| - 1] == s.commits;
  }

  lemma OwnerStepKeeps<D(!new)>(doc: D, s: State<D>, e: Event<D>)
    requires Inv(doc, s) && Enabled(s, e)
    requires e.Create? || e.Write? || e.WriteFails? || e.Load? || e.Abandon? || e.CheckOwn? || e.UnlinkOwn?
    ensures Inv(doc, Step(s, e))
  {
    if !e.Create? { assert s.processes[e.p].Owner(); }
  }

  lemma TickKeeps<D(!new)>(doc: D, s: State<D>, elapsed: nat)
    requires Inv(doc, s) && Enabled(s, Tick(elapsed))
    ensures Inv(doc, Step(s, Tick(elapsed)))
  {
  }

  /** A step that changes no owner, and no lock that has one. */
  lemma PassiveKeeps<D(!new)>(doc: D, s: State<D>, s': State<D>)
    requires Inv(doc, s)
    requires s' == s.(lock := s'.lock, processes := s'.processes)
    requires s'.lock == s.lock || s'.lock.None?
    requires forall p :: p in s'.processes && s'.processes[p].Owner() ==>
                           p in s.processes && s.processes[p] == s'.processes[p] && s'.lock == s.lock
    ensures Inv(doc, s')
  {
  }

  lemma OtherStepKeeps<D(!new)>(doc: D, s: State<D>, e: Event<D>)
    requires Inv(doc, s) && Enabled(s, e) && Undisturbed(s, e)
    requires e.Start? || e.Stat? || e.ReadToken? || e.Match? || e.Unlink? || e.Stop?
    ensures Inv(doc, Step(s, e))
  {
    var s' := Step(s, e);
    forall p | p in s'.processes && s'.processes[p].Owner()
      ensures p in s.processes && s.processes[p] == s'.processes[p] && s'.lock == s.lock
    {
      assert p in s.processes && s.processes[p] == s'.processes[p];
      assert Owns(s, s.processes[p]);
    }
    PassiveKeeps(doc, s, s');
  }

  lemma {:induction false} RunKeeps<D(!new)>(doc: D, run: seq<Event<D>>)
    requires Possible(Initial(doc), run) && UndisturbedRun(Initial(doc), run)
    ensures Inv(doc, After(Initial(doc), run))
  {
    if run != [] {
      var init, e := run[..|run| - 1], run[|run| - 1];
      RunKeeps(doc, init);
      var s := After(Initial(doc), init);
      match e
      case Save(p, effect) => SaveKeeps(doc, s, p, effect);
      case Tick(elapsed) => TickKeeps(doc, s, elapsed);
      case Start(_) | Stat(_) | ReadToken(_) | Match(_) | Unlink(_) | Stop(_) => OtherStepKeeps(doc, s, e);
      case _ => OwnerStepKeeps(doc, s, e);
    }
  }

  /**
   In every run whose stale breaks are undisturbed: at most one process is inside
   the protected section, and the document is the saved mutations applied in the
   order in which their processes acquired the lock.
   */
  lemma UpdatesLinearise<D(!new)>(doc: D, run: seq<Event<D>>)
    requires Possible(Initial(doc), run) && UndisturbedRun(Initial(doc), run)
    ensures var s := After(Initial(doc), run);
            Exclusive(s) && s.doc == Applied(doc, s.commits) && Ordered(s.commits)
  {
    RunKeeps(doc, run);
  }

  /** In such a run no release, break or crash takes the lock from a live owner other than the one releasing. */
  lemma LockLeavesOnlyWithItsOwner<D(!new)>(doc: D, run: seq<Event<D>>, s: State<D>, e: Event<D>, q: nat)
    requires Possible(Initial(doc), run) && UndisturbedRun(Initial(doc), run) && s == After(Initial(doc), run)
    requires Enabled(s, e) && Undisturbed(s, e)
    requires q in s.processes && s.processes[q].Owner() && s.lock.Some? && Step(s, e).lock.None?
    ensures (e.UnlinkOwn? || e.WriteFails?) && e.p == q
  {
    RunKeeps(doc, run);
    assert Owns(s, s.processes[q]);
    if e.UnlinkOwn? || e.WriteFails? { assert s.processes[e.p].Owner(); }
  }

  /** Whatever was disturbed before, a release sets out to unlink only a file in which it has just read its own token. */
  lemma ReleaseReadsItsOwnToken<D(!new)>(s: State<D>, e: Event<D>, p: nat)
    requires Enabled(s, e) && p in s.processes && !s.processes[p].phase.Releasing?
    requires p in Step(s, e).processes && Step(s, e).processes[p].phase.Releasing?
    ensures e == CheckOwn(p) && s.lock.Some? && s.lock.value.written && s.lock.value.ticket == s.processes[p].ticket
  {
  }

  /** The tickets of owners that were stopped on the way. */
  ghost function StoppedOwners<D(!new)>(s: State<D>, run: seq<Event<D>>): set<nat>
    requires Possible(s, run)
  {
    if run == [] then {} else
    var before, e := After(s, run[..|run| - 1]), run[|run| - 1];
    StoppedOwners(s, run[..|run| - 1])
    + if e.Stop? && before.processes[e.p].Owner() then {before.processes[e.p].ticket} else {}
  }

  ghost predicate OwnedBy<D(!new)>(s: State<D>, p: nat) {
    p in s.processes && s.processes[p].Owner() && s.lock.Some? && s.processes[p].ticket == s.lock.value.ticket
  }

  /** The lock file has a live owner, or belongs to one that was stopped. */
  ghost predicate Accounted<D(!new)>(s: State<D>, stopped: set<nat>) {
    s.lock.Some? ==> s.lock.value.ticket in stopped || exists p :: OwnedBy(s, p)
  }

  lemma StepAccounted<D(!new)>(doc: D, s: State<D>, e: Event<D>, stopped: set<nat>)
    requires Inv(doc, s) && Enabled(s, e) && Accounted(s, stopped)
    ensures Accounted(Step(s, e),
                      stopped + if e.Stop? && s.processes[e.p].Owner() then {s.processes[e.p].ticket} else {})
  {
    var s' := Step(s, e);
    if e.Create? { assert OwnedBy(s', e.p); }
    if s'.lock.Some? && s.lock.Some? && s.lock.value.ticket !in stopped {
      var q :| OwnedBy(s, q);
      assert Owns(s, s.processes[q]);
      if !e.Stop? || e.p != q { assert OwnedBy(s', q); }
    }
  }

  /**
   Nobody forgets a lock: in such a run a lock file that is there belongs to a live owner,
   or to one that was stopped before it could remove it.
   */
  lemma {:induction false} LockIsAccountedFor<D(!new)>(doc: D, run: seq<Event<D>>)
    requires Possible(Initial(doc), run) && UndisturbedRun(Initial(doc), run)
    ensures Accounted(After(Initial(doc), run), StoppedOwners(Initial(doc), run))
  {
    if run != [] {
      var init := run[..|run| - 1];
      RunKeeps(doc, init);
      LockIsAccountedFor(doc, init);
      StepAccounted(doc, After(Initial(doc), init), run[|run| - 1], StoppedOwners(Initial(doc), init));
    }
  }

  // ----- When a break is undisturbed -----------------------------------------

  /** Stat, read, compare and unlink with nothing in between remove exactly the file that was stale. */
  lemma AtomicBreakIsUndisturbed<D(!new)>(s: State<D>, p: nat)
    requires Enabled(s, Stat(p))
    ensures var s1 := Step(s, Stat(p));
            Enabled(s1, ReadToken(p)) &&
            var s2 := Step(s1, ReadToken(p));
            Enabled(s2, Match(p)) &&
            var s3 := Step(s2, Match(p));
            Enabled(s3, Unlink(p)) && Undisturbed(s3, Unlink(p)) && s3.lock == s.lock
  {
  }

  /**
   The assumption cannot be dropped: an unlink that meets a live owner's lock lets
   the breaker in beside that owner at its very next step.
   */
  lemma DisturbedBreakAdmitsTwo<D(!new)>(s: State<D>, p: nat, q: nat)
    requires Enabled(s, Unlink(p)) && p != q
    requires q in s.processes && s.processes[q].Owner()
    ensures var s1 := Step(s, Unlink(p));
            Enabled(s1, Create(p)) && !Exclusive(Step(s1, Create(p)))
  {
    var s2 := Step(Step(s, Unlink(p)), Create(p));
    assert s2.processes[p].Owner() && s2.processes[q].Owner();
  }

  // ----- A run in which the second break is disturbed -------------------------

  ghost predicate Reachable<D(!new)>(doc: D, s: State<D>) {
    exists run :: Possible(Initial(doc), run) && After(Initial(doc), run) == s
  }

  lemma Reach<D(!new)>(doc: D, s: State<D>, e: Event<D>, s': State<D>)
    requires Reachable(doc, s) && Enabled(s, e) && s' == Step(s, e)
    ensures Reachable(doc, s')
  {
    var run :| Possible(Initial(doc), run) && After(Initial(doc), run) == s;
    assert (run + [e])[..|run|] == run && (run + [e])[|run|] == e;
    assert Possible(Initial(doc), run + [e]) && After(Initial(doc), run + [e]) == s';
  }

  function Scene<D>(now: nat, lock: Option<LockFile>, doc: D, one: Process<D>, two: Process<D>, tickets: nat): State<D> {
    State(now, lock, doc, map[1 := one, 2 := two], tickets, [])
  }

  lemma TwoStart<D(!new)>(doc: D)
    ensures Reachable(doc, Initial(doc).(processes := map[1 := Process(Waiting, 0, 0), 2 := Process(Waiting, 0, 0)]))
  {
    var w := Process(Waiting, 0, 0);
    assert Possible(Initial(doc), []) && After(Initial(doc), []) == Initial(doc);
    var s1 := Initial(doc).(processes := map[1 := w]);
    Reach(doc, Initial(doc), Start(1), s1);
    var s2 := s1.(processes := map[1 := w, 2 := w]);
    Reach(doc, s1, Start(2), s2);
  }

  /** A third process takes the lock while 1 and 2 wait. */
  lemma ThirdTakes<D(!new)>(doc: D)
    ensures var w := Process(Waiting, 0, 0);
            Reachable(doc, State(0, Some(LockFile(0, false, 0)), doc, map[1 := w, 2 := w, 3 := Process(Created, 0, 0)], 1, []))
  {
    var w := Process(Waiting, 0, 0);
    var s2 := Initial(doc).(processes := map[1 := w, 2 := w]);
    TwoStart(doc);
    var s3 := s2.(processes := map[1 := w, 2 := w, 3 := w]);
    Reach(doc, s2, Start(3), s3);
    var s4 := State(0, Some(LockFile(0, false, 0)), doc, map[1 := w, 2 := w, 3 := Process(Created, 0, 0)], 1, []);
    Reach(doc, s3, Create(3), s4);
  }

  /** It dies holding the lock. */
  lemma Abandoned<D(!new)>(doc: D)
    ensures Reachable(doc, Scene(0, Some(LockFile(0, true, 0)), doc, Process(Waiting, 0, 0), Process(Waiting, 0, 0), 1))
  {
    var w := Process(Waiting, 0, 0);
    ThirdTakes(doc);
    var s4 := State(0, Some(LockFile(0, false, 0)), doc, map[1 := w, 2 := w, 3 := Process(Created, 0, 0)], 1, []);
    var s5 := State(0, Some(LockFile(0, true, 0)), doc, map[1 := w, 2 := w, 3 := Process(Holding, 0, 0)], 1, []);
    Reach(doc, s4, Write(3), s5);
    var s6 := Scene(0, Some(LockFile(0, true, 0)), doc, w, w, 1);
    assert Step(s5, Stop(3)).processes == s6.processes;
    Reach(doc, s5, Stop(3), s6);
  }

  /** Both find it stale. */
  lemma BothSawStale<D(!new)>(doc: D)
    ensures Reachable(doc, Scene(30_001, Some(LockFile(0, true, 0)), doc,
                                 Process(SawStale, 0, 0), Process(SawStale, 0, 0), 1))
  {
    var w, saw, stale := Process(Waiting, 0, 0), Process(SawStale, 0, 0), Some(LockFile(0, true, 0));
    Abandoned(doc);
    var s1 := Scene(30_001, stale, doc, w, w, 1);
    Reach(doc, s1.(now := 0), Tick(30_001), s1);
    var s2 := Scene(30_001, stale, doc, saw, w, 1);
    Reach(doc, s1, Stat(1), s2);
    var s3 := Scene(30_001, stale, doc, saw, saw, 1);
    Reach(doc, s2, Stat(2), s3);
  }

  lemma FirstMatches<D(!new)>(doc: D)
    ensures Reachable(doc, Scene(30_001, Some(LockFile(0, true, 0)), doc, Process(Matched, 0, 0), Process(SawStale, 0, 0), 1))
  {
    var saw, stale := Process(SawStale, 0, 0), Some(LockFile(0, true, 0));
    BothSawStale(doc);
    var s3 := Scene(30_001, stale, doc, saw, saw, 1);
    var s4 := Scene(30_001, stale, doc, Process(Read(Some(0)), 0, 0), saw, 1);
    Reach(doc, s3, ReadToken(1), s4);
    Reach(doc, s4, Match(1), Scene(30_001, stale, doc, Process(Matched, 0, 0), saw, 1));
  }

  /** 1 breaks it, and then takes the lock. */
  lemma FirstBreak<D(!new)>(doc: D)
    ensures Reachable(doc, Scene(30_001, None, doc, Process(Waiting, 0, 0), Process(SawStale, 0, 0), 1))
  {
    FirstMatches(doc);
    var saw := Process(SawStale, 0, 0);
    var s5 := Scene(30_001, Some(LockFile(0, true, 0)), doc, Process(Matched, 0, 0), saw, 1);
    Reach(doc, s5, Unlink(1), Scene(30_001, None, doc, Process(Waiting, 0, 0), saw, 1));
  }

  lemma FirstTakes<D(!new)>(doc: D)
    ensures Reachable(doc, Scene(30_001, Some(LockFile(1, true, 30_001)), doc,
                                 Process(Holding, 1, 30_001), Process(SawStale, 0, 0), 2))
  {
    var saw := Process(SawStale, 0, 0);
    FirstBreak(doc);
    var s6 := Scene(30_001, None, doc, Process(Waiting, 0, 0), saw, 1);
    var s7 := Scene(30_001, Some(LockFile(1, false, 30_001)), doc, Process(Created, 1, 30_001), saw, 2);
    Reach(doc, s6, Create(1), s7);
    Reach(doc, s7, Write(1),
          Scene(30_001, Some(LockFile(1, true, 30_001)), doc, Process(Holding, 1, 30_001), saw, 2));
  }

  /** Process 2 now reads the live token of 1, matches it against itself, and removes it. */
  lemma StatThenReadAdmitsTwo<D(!new)>(doc: D)
    ensures exists s :: Reachable(doc, s) && !Exclusive(s)
  {
    FirstTakes(doc);
    var mine, lock := Process(Holding, 1, 30_001), Some(LockFile(1, true, 30_001));
    var s1 := Scene(30_001, lock, doc, mine, Process(SawStale, 0, 0), 2);
    var s2 := Scene(30_001, lock, doc, mine, Process(Read(Some(1)), 0, 0), 2);
    Reach(doc, s1, ReadToken(2), s2);
    var s3 := Scene(30_001, lock, doc, mine, Process(Matched, 0, 0), 2);
    Reach(doc, s2, Match(2), s3);
    DisturbedBreakAdmitsTwo(s3, 2, 1);
    var s4 := Step(s3, Unlink(2));
    Reach(doc, s3, Unlink(2), s4);
    Reach(doc, s4, Create(2), Step(s4, Create(2)));
  }
}
