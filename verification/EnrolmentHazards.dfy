/**
 The discipline of `EnrolmentSafety` cannot be relaxed: for each of its four
 clauses, and for every record and invite, there is a run that breaks that clause
 alone and ends with an identity the bus has granted and whose private keys are
 nowhere.
 */
module EnrolmentHazards {
  import opened CredentialStore
  import opened Transport
  import opened Enrolment
  import opened EnrolmentSafety

  const AGENT := "b.agent-1"
  const REFUSED_403 := Failed(Failure(Auth, 403, false, Plain))
  const LOCAL_FAILURE := Failed(Failure(Config, 0, false, Plain))

  datatype Clause = SameInvite | NoLocalGiveUp | NoErasure | Saves

  /** The clause of the discipline that constrains this kind of step. */
  function ClauseOf(e: Event): Clause {
    if e.Rewrites? then NoErasure
    else if e.Acts? && e.process.Start? then SameInvite
    else if e.Acts? && e.process.SendUnsaved? then Saves
    else NoLocalGiveUp
  }

  ghost function Breach(s: State, e: Event): set<Clause>
    requires Enabled(s, e)
  {
    if Disciplined(s, e) then {} else {ClauseOf(e)}
  }

  ghost function Breaches(s: State, run: seq<Event>): set<Clause>
    requires Possible(s, run)
    decreases |run|
  {
    if run == [] then {} else Breach(s, run[0]) + Breaches(Step(s, run[0]), run[1..])
  }

  lemma {:induction false} NoBreachIsDisciplined(s: State, run: seq<Event>)
    requires Possible(s, run)
    ensures Breaches(s, run) == {} <==> DisciplinedRun(s, run)
    decreases |run|
  {
    if run != [] { NoBreachIsDisciplined(Step(s, run[0]), run[1..]); }
  }

  ghost predicate Leads(run: seq<Event>, s: State, broken: set<Clause>) {
    Possible(INITIAL, run) && After(INITIAL, run) == s && Breaches(INITIAL, run) == broken
  }

  lemma {:induction false} ExtendFrom(s: State, run: seq<Event>, e: Event)
    requires Possible(s, run) && Enabled(After(s, run), e)
    ensures Possible(s, run + [e]) && After(s, run + [e]) == Step(After(s, run), e)
    ensures Breaches(s, run + [e]) == Breaches(s, run) + Breach(After(s, run), e)
    decreases |run|
  {
    if run == [] {
      assert [e][1..] == [];
      assert Possible(Step(s, e), []);
    } else {
      assert (run + [e])[1..] == run[1..] + [e];
      ExtendFrom(Step(s, run[0]), run[1..], e);
    }
  }

  lemma Extend(run: seq<Event>, s: State, broken: set<Clause>, e: Event) returns (run': seq<Event>, s': State)
    requires Leads(run, s, broken) && Enabled(s, e)
    ensures s' == Step(s, e) && Leads(run', s', broken + Breach(s, e))
  {
    ExtendFrom(INITIAL, run, e);
    run', s' := run + [e], Step(s, e);
  }

  /** A second attempt under the same key: another seed was drawn, and it will not be used. */
  function Retry(want: Pending, seed: string, invite: Invite): Pending {
    want.(authSeed := seed, inviteId := invite.id)
  }

  predicate Wanted(want: Pending, invite: Invite) { want.authSeed != "" && want.inviteId == invite.id }

  // ----- One more step, and what it leaves -------------------------------------

  lemma Starts(run: seq<Event>, s: State, broken: set<Clause>, pid: Pid, want: Pending, invite: Invite)
    returns (run': seq<Event>, s': State)
    requires Leads(run, s, broken) && pid !in s.attempts && Wanted(want, invite) && want.authSeed !in s.drawn
    requires s.doc == Document("", [], [])
    ensures Leads(run', s', broken)
    ensures s' == s.(doc := Document("", [], [want]), drawn := s.drawn[want.authSeed := want], history := s'.history,
                     attempts := s.attempts[pid := Attempt(want, false, invite, Sending(false), Period(s.history, SlotOf(want)))])
  {
    assert Decide(s.doc, want) == Fresh(want);
    run', s' := Extend(run, s, broken, Acts(Start(pid, want, invite)));
  }

  /** Process 1 resumes the record of the running owner, process 0. */
  lemma Resumes(run: seq<Event>, s: State, owner: Attempt, other: Invite, seed: string)
    returns (run': seq<Event>, s': State)
    requires Leads(run, s, {}) && !owner.resumed && Wanted(owner.record, owner.invite)
    requires s.doc == Document("", [], [owner.record]) && s.attempts == map[0 := owner]
    requires seed != "" && seed !in s.drawn && (owner.record.inviteId == "" || other.id == owner.record.inviteId)
    ensures Leads(run', s', if other == owner.invite then {} else {SameInvite})
    ensures s' == s.(drawn := s'.drawn, history := s'.history, attempts := s'.attempts)
    ensures s'.attempts == map[0 := owner, 1 := Attempt(owner.record, true, other, Sending(false),
                                                        Period(s.history, SlotOf(owner.record)))]
  {
    var retry := Start(1, Retry(owner.record, seed, other), other);
    assert Decide(s.doc, retry.want) == Resumed(owner.record) && Owns(s, 0);
    run', s' := Extend(run, s, {}, Acts(retry));
  }

  lemma Transmits(run: seq<Event>, s: State, broken: set<Clause>, pid: Pid) returns (run': seq<Event>, s': State)
    requires Leads(run, s, broken) && pid in s.attempts && s.attempts[pid].phase.Sending?
    ensures Leads(run', s', broken)
    ensures s' == s.(sent := s.sent + {RequestOf(s.attempts[pid])}, history := s'.history,
                     attempts := s.attempts[pid := s.attempts[pid].(phase := Sending(true))])
  {
    run', s' := Extend(run, s, broken, Acts(Transmit(pid)));
  }

  lemma Applies(run: seq<Event>, s: State, broken: set<Clause>, x: Request) returns (run': seq<Event>, s': State)
    requires Leads(run, s, broken) && x in s.sent && x !in s.refused && s.applied == map[]
    ensures Leads(run', s', broken) && s' == s.(applied := map[x.slot := Grant(x.payload, AGENT)])
  {
    run', s' := Extend(run, s, broken, Answers(Apply(x, AGENT)));
  }

  lemma Refuses(run: seq<Event>, s: State, broken: set<Clause>, x: Request) returns (run': seq<Event>, s': State)
    requires Leads(run, s, broken) && x in s.sent && s.applied == map[]
    ensures Leads(run', s', broken) && s' == s.(refused := s.refused + {x})
  {
    run', s' := Extend(run, s, broken, Answers(Refuse(x)));
  }

  lemma Returns(run: seq<Event>, s: State, broken: set<Clause>, pid: Pid, o: Outcome) returns (run': seq<Event>, s': State)
    requires Leads(run, s, broken) && pid in s.attempts && CanReturn(s, s.attempts[pid], o)
    ensures Leads(run', s', broken)
    ensures s' == s.(attempts := s.attempts[pid := s.attempts[pid].(phase := Returned(o))])
  {
    run', s' := Extend(run, s, broken, Acts(Return(pid, o)));
  }

  lemma Crashes(run: seq<Event>, s: State, broken: set<Clause>, pid: Pid) returns (run': seq<Event>, s': State)
    requires Leads(run, s, broken) && pid in s.attempts
    ensures Leads(run', s', broken) && s' == s.(attempts := s.attempts - {pid})
  {
    run', s' := Extend(run, s, broken, Acts(Crash(pid)));
  }

  lemma Promotes(run: seq<Event>, s: State, pid: Pid) returns (run': seq<Event>, s': State)
    requires Leads(run, s, {}) && pid in s.attempts && s.attempts[pid].phase.Returned?
    requires s.attempts[pid].phase.outcome.Enrolled?
    ensures var a := s.attempts[pid];
            && Leads(run', s', {})
            && s' == s.(attempts := s.attempts - {pid}, history := s'.history,
                        doc := Promoted(s.doc, a.record.key, CredentialFor(a.record, a.phase.outcome, []), true))
  {
    run', s' := Extend(run, s, {}, Acts(Settle(pid, true, [])));
  }

  /** A failed owner drops the record at its slot. */
  lemma GivesUp(run: seq<Event>, s: State, broken: set<Clause>, pid: Pid) returns (run': seq<Event>, s': State)
    requires Leads(run, s, broken) && pid in s.attempts && s.attempts[pid].phase.Returned?
    requires var a := s.attempts[pid]; a.phase.outcome.Failed? && Drops(a.resumed, a.phase.outcome.failure)
    ensures var a := s.attempts[pid];
            && (a.phase.outcome.failure.status != 0 ==> Leads(run', s', broken))
            && (a.phase.outcome.failure.status == 0 && !Silent(s, a.record.authSeed) ==> Leads(run', s', broken + {NoLocalGiveUp}))
            && Possible(INITIAL, run') && After(INITIAL, run') == s'
            && s' == s.(attempts := s.attempts - {pid}, history := s'.history, doc := Dropped(s.doc, a.record.key, a.record.busUrl))
  {
    run', s' := Extend(run, s, broken, Acts(Settle(pid, true, [])));
  }

  lemma SoleSeed(d: Document, record: Pending)
    requires d == Document("", [], [record])
    ensures PendingSeeds(d) == {record.authSeed} && CredentialSeeds(d) == {}
  {
    assert record in d.pending;
  }

  lemma LogoutAllErases(s: State, owner: Attempt)
    requires !owner.resumed && s.attempts == map[0 := owner] && owner.record in s.doc.pending
    requires PendingSeeds(s.doc) == {owner.record.authSeed} && CredentialSeeds(s.doc) == {} && s.erased == {}
    ensures !Disciplined(s, Rewrites(LogoutAll))
    ensures var d := Document("", [], []);
            Erasing(s, d) == s.(doc := d, erased := {owner.record.authSeed}, history := Erasing(s, d).history)
  {
    var d := Document("", [], []);
    assert Owns(s, 0) && !KeepsOwned(s, d);
    assert PendingSeeds(d) == {} && CredentialSeeds(d) == {};
  }

  /** `logout --all` under a running owner. */
  lemma LogsOutUnder(run: seq<Event>, s: State, owner: Attempt) returns (run': seq<Event>, s': State)
    requires Leads(run, s, {}) && !owner.resumed
    requires s.doc == Document("", [], [owner.record]) && s.attempts == map[0 := owner] && s.erased == {}
    ensures Leads(run', s', {NoErasure})
    ensures s' == s.(doc := Document("", [], []), erased := {owner.record.authSeed}, history := s'.history)
  {
    SoleSeed(s.doc, owner.record);
    LogoutAllErases(s, owner);
    run', s' := Extend(run, s, {}, Rewrites(LogoutAll));
  }

  lemma SendsUnsaved(run: seq<Event>, s: State, broken: set<Clause>, want: Pending, invite: Invite)
    returns (run': seq<Event>, s': State)
    requires Leads(run, s, broken) && Wanted(want, invite) && want.authSeed !in s.drawn
    ensures Leads(run', s', broken + {Saves})
    ensures s' == s.(sent := s.sent + {RequestFor(want, invite)}, drawn := s.drawn[want.authSeed := want], history := s'.history)
  {
    run', s' := Extend(run, s, broken, Acts(SendUnsaved(want, invite)));
  }

  lemma Mints(run: seq<Event>, s: State, seed: string) returns (run': seq<Event>, s': State)
    requires Leads(run, s, {}) && |s.doc.credentials| == 1 && s.doc.credentials[0].messagingSeed == "" && seed != ""
    ensures Leads(run', s', {})
    ensures s' == s.(doc := s.doc.(credentials := [s.doc.credentials[0].(messagingSeed := seed)]),
                     erased := s'.erased, history := s'.history)
  {
    run', s' := Extend(run, s, {}, Rewrites(Mint(0, seed)));
    assert s'.doc.credentials == [s.doc.credentials[0].(messagingSeed := seed)];
  }

  // ----- The hazards -----------------------------------------------------------

  lemma OwnerStarts(want: Pending, invite: Invite) returns (run: seq<Event>, s: State)
    requires Wanted(want, invite)
    ensures Leads(run, s, {})
    ensures s.doc == Document("", [], [want]) && s.attempts == map[0 := Attempt(want, false, invite, Sending(false), 0)]
    ensures s.applied == map[] && s.refused == {} && s.erased == {} && s.drawn == map[want.authSeed := want]
  {
    assert Leads([], INITIAL, {});
    run, s := Starts([], INITIAL, {}, 0, want, invite);
  }

  /** The owner of `want` starts and is refused, but has not read the refusal yet. */
  lemma OwnerRefused(want: Pending, invite: Invite) returns (run: seq<Event>, s: State)
    requires Wanted(want, invite)
    ensures Leads(run, s, {})
    ensures s.doc == Document("", [], [want]) && s.attempts == map[0 := Attempt(want, false, invite, Sending(true), 0)]
    ensures s.applied == map[] && s.refused == {RequestFor(want, invite)} && s.erased == {}
    ensures s.drawn == map[want.authSeed := want]
  {
    run, s := OwnerStarts(want, invite);
    run, s := Transmits(run, s, {}, 0);
    run, s := Refuses(run, s, {}, RequestFor(want, invite));
  }

  /** Process 1 sends, the bus grants it, and process 1 dies before the answer. */
  lemma GrantThenCrash(run: seq<Event>, s: State, broken: set<Clause>, a: Attempt) returns (run': seq<Event>, s': State)
    requires Leads(run, s, broken)
    requires 1 in s.attempts && s.attempts[1] == a && a.phase == Sending(false)
    requires s.applied == map[] && RequestOf(a) !in s.refused
    ensures Leads(run', s', broken)
    ensures s'.doc == s.doc && s'.attempts == s.attempts - {1} && s'.refused == s.refused && s'.erased == s.erased
    ensures s'.applied == map[SlotOf(a.record) := Grant(RequestOf(a).payload, AGENT)]
    ensures RequestOf(a) in s'.sent
  {
    run', s' := Transmits(run, s, broken, 1);
    run', s' := Applies(run', s', broken, RequestOf(a));
    run', s' := Crashes(run', s', broken, 1);
  }

  lemma EmptyDocument(pending: seq<Pending>)
    requires forall p :: p !in pending
    ensures pending == []
  {
    if pending != [] { HasMember(pending); }
  }

  lemma HasMember(pending: seq<Pending>)
    requires pending != []
    ensures exists p :: p in pending
  {
    assert pending[0] in pending;
  }

  /** The owner gives up and drops the record at its slot, which held the granted seeds. */
  lemma OwnerDrops(run: seq<Event>, s: State, broken: set<Clause>, a: Attempt, o: Outcome) returns (run': seq<Event>, s': State)
    requires Leads(run, s, broken) && s.attempts == map[0 := a] && !a.resumed
    requires CanReturn(s, a, o) && o.Failed? && Drops(false, o.failure)
    requires SlotOf(a.record) in s.applied && s.applied[SlotOf(a.record)].payload.authKey.seed !in s.erased
    requires s.doc.credentials == [] && forall p :: p in s.doc.pending ==> SlotOf(p) == SlotOf(a.record)
    ensures Possible(INITIAL, run') && After(INITIAL, run') == s' && !NoOrphans(s')
    ensures o.failure.status != 0 ==> Breaches(INITIAL, run') == broken
    ensures o.failure.status == 0 && !Silent(s, a.record.authSeed) ==> Breaches(INITIAL, run') == broken + {NoLocalGiveUp}
  {
    var run1, s1 := Returns(run, s, broken, 0, o);
    run', s' := GivesUp(run1, s1, broken, 0);
    EmptyDocument(s'.doc.pending);
    assert !Recoverable(s', s'.applied[SlotOf(a.record)].payload);
  }

  /**
   A resume with any invite other than the running owner's, where the claim admits
   it: the stored invite id is empty, or only the secret differs.
   */
  lemma OtherInviteOrphans(want: Pending, invite: Invite, other: Invite, seed: string) returns (run: seq<Event>)
    requires Wanted(want, invite) && seed != "" && seed != want.authSeed
    requires other != invite && (invite.id == "" || other.id == invite.id)
    ensures Possible(INITIAL, run) && Breaches(INITIAL, run) == {SameInvite}
    ensures !NoOrphans(After(INITIAL, run))
  {
    var s;
    var owner := Attempt(want, false, invite, Sending(true), 0);
    run, s := OwnerRefused(want, invite);
    run, s := Resumes(run, s, owner, other, seed);
    run, s := GrantThenCrash(run, s, {SameInvite}, s.attempts[1]);
    assert s.attempts == map[0 := owner];
    run, s := OwnerDrops(run, s, {SameInvite}, owner, REFUSED_403);
  }

  /** A local failure of the owner, after another process has resumed and sent its record under the same invite. */
  lemma LocalGiveUpOrphans(want: Pending, invite: Invite, seed: string) returns (run: seq<Event>)
    requires Wanted(want, invite) && seed != "" && seed != want.authSeed
    ensures Possible(INITIAL, run) && Breaches(INITIAL, run) == {NoLocalGiveUp}
    ensures !NoOrphans(After(INITIAL, run))
  {
    var s;
    var owner := Attempt(want, false, invite, Sending(false), 0);
    run, s := OwnerStarts(want, invite);
    run, s := Resumes(run, s, owner, invite, seed);
    var resumer := s.attempts[1];
    run, s := GrantThenCrash(run, s, {}, resumer);
    assert SeedOf(RequestOf(resumer)) == want.authSeed && !Silent(s, want.authSeed);
    assert s.attempts == map[0 := owner];
    run, s := OwnerDrops(run, s, {}, owner, LOCAL_FAILURE);
  }

  /** `logout --all` under a running owner, then a fresh enrolment at the same slot. */
  lemma EraseThenEnrol(run: seq<Event>, s: State, owner: Attempt, again: Pending, next: Invite)
    returns (run': seq<Event>, s': State, attempt: Attempt)
    requires Leads(run, s, {}) && !owner.resumed && Wanted(again, next)
    requires s.doc == Document("", [], [owner.record]) && s.attempts == map[0 := owner] && s.erased == {}
    requires again.authSeed !in s.drawn
    ensures Leads(run', s', {NoErasure})
    ensures s'.doc == Document("", [], [again]) && s'.applied == s.applied && s'.refused == s.refused && s'.sent == s.sent
    ensures s'.erased == {owner.record.authSeed}
    ensures attempt.record == again && !attempt.resumed && attempt.invite == next && attempt.phase == Sending(false)
    ensures s'.attempts == map[0 := owner, 1 := attempt]
  {
    run', s' := LogsOutUnder(run, s, owner);
    run', s' := Starts(run', s', {NoErasure}, 1, again, next);
    attempt := s'.attempts[1];
  }

  /** A logout while the owner runs: the next enrolment under the key is dropped by the old owner's refusal. */
  lemma ErasureOrphans(want: Pending, invite: Invite, seed: string, next: Invite) returns (run: seq<Event>)
    requires Wanted(want, invite) && seed != "" && seed != want.authSeed
    ensures Possible(INITIAL, run) && Breaches(INITIAL, run) == {NoErasure}
    ensures !NoOrphans(After(INITIAL, run))
  {
    var s, attempt;
    var owner, again := Attempt(want, false, invite, Sending(true), 0), Retry(want, seed, next);
    run, s := OwnerRefused(want, invite);
    run, s, attempt := EraseThenEnrol(run, s, owner, again, next);
    run, s := GrantThenCrash(run, s, {NoErasure}, attempt);
    assert s.attempts == map[0 := owner];
    run, s := OwnerDrops(run, s, {NoErasure}, owner, REFUSED_403);
  }

  /** A call that does not save: the bus grants keys this document never saw. */
  lemma UnsavedOrphans(want: Pending, invite: Invite) returns (run: seq<Event>)
    requires Wanted(want, invite)
    ensures Possible(INITIAL, run) && Breaches(INITIAL, run) == {Saves}
    ensures !NoOrphans(After(INITIAL, run))
  {
    var s;
    assert Leads([], INITIAL, {});
    run, s := SendsUnsaved([], INITIAL, {}, want, invite);
    run, s := Applies(run, s, {Saves}, RequestFor(want, invite));
    assert !Recoverable(s, s.applied[SlotOf(want)].payload);
  }

  // ----- Same key, different payload -------------------------------------------

  /** Both requests were sent at one slot, with different keys. */
  ghost predicate Disagree(s: State, x: Request, x': Request) {
    x in s.sent && x' in s.sent && x.slot == x'.slot && x.payload.authKey != x'.payload.authKey
  }

  /**
   A claim made before the slot was emptied, still running: its request and that of
   the next claim at the slot carry different keys, whatever the two records are.
   */
  lemma StaleClaimDisagrees(want: Pending, invite: Invite, seed: string, next: Invite) returns (run: seq<Event>)
    requires Wanted(want, invite) && seed != "" && seed != want.authSeed
    ensures Possible(INITIAL, run)
    ensures Disagree(After(INITIAL, run), RequestFor(want, invite), RequestFor(Retry(want, seed, next), next))
  {
    var s, attempt;
    var owner := Attempt(want, false, invite, Sending(false), 0);
    run, s := OwnerStarts(want, invite);
    run, s, attempt := EraseThenEnrol(run, s, owner, Retry(want, seed, next), next);
    run, s := Transmits(run, s, {NoErasure}, 1);
    run, s := Transmits(run, s, {NoErasure}, 0);
  }

  /** A call that does not save, beside one that does: different keys under one key. */
  lemma UnsavedDisagrees(want: Pending, invite: Invite, seed: string, next: Invite) returns (run: seq<Event>)
    requires Wanted(want, invite) && seed != "" && seed != want.authSeed
    ensures Possible(INITIAL, run)
    ensures Disagree(After(INITIAL, run), RequestFor(want, invite), RequestFor(Retry(want, seed, next), next))
  {
    var s;
    run, s := OwnerStarts(want, invite);
    run, s := Transmits(run, s, {}, 0);
    run, s := SendsUnsaved(run, s, {}, Retry(want, seed, next), next);
  }
}
