/**
 No orphaned identity: over every disciplined run, whatever the bus granted is
 still held in the credential document, or was erased on purpose.
 */
module EnrolmentSafety {
  import opened CredentialStore
  import opened Enrolment

  /** `a` drew its record's seeds itself: the only kind of attempt that ever drops them. */
  predicate Owns(s: State, pid: Pid) { pid in s.attempts && !s.attempts[pid].resumed }

  ghost predicate Silent(s: State, seed: string) {
    forall r :: r in s.sent ==> r.payload.authKey.seed != seed
  }

  /**
   The discipline under which nothing is orphaned. While the process that drew a
   record is still running:
   - a resume presents the invite that process presents;
   - that process does not give up before sending (a local failure, status 0) when
     its record has been resumed;
   - the record is not erased by logout or by the 24-hour rule.
   And every call saves: one that does not keeps its keys to itself.
   */
  ghost predicate ActsDisciplined(s: State, p: ProcessEvent)
    requires CanAct(s, p)
  {
    match p
    case Start(_, want, invite) =>
      Decide(s.doc, want).Resumed? ==>
        forall q :: Owns(s, q) && s.attempts[q].record == Decide(s.doc, want).record ==> s.attempts[q].invite == invite
    case Settle(pid, _, _) =>
      var a := s.attempts[pid];
      a.phase.outcome.Failed? && a.phase.outcome.failure.status == 0 && Drops(a.resumed, a.phase.outcome.failure) ==>
        && Silent(s, a.record.authSeed)
        && forall q :: q in s.attempts && q != pid ==> s.attempts[q].record != a.record
    case SendUnsaved(_, _) => false
    case _ => true
  }

  ghost predicate Disciplined(s: State, e: Event)
    requires Enabled(s, e)
  {
    match e
    case Acts(p) => ActsDisciplined(s, p)
    case Answers(_) => true
    case Rewrites(d) => KeepsOwned(s, Redone(s.doc, d))
  }

  ghost predicate KeepsOwned(s: State, d: Document) {
    forall q :: Owns(s, q) && s.attempts[q].record in s.doc.pending ==> s.attempts[q].record in d.pending
  }

  // ----- The invariant ------------------------------------------------------

  function SeedOf(x: Request): string { x.payload.authKey.seed }

  predicate Carries(x: Request, record: Pending) {
    x == RequestFor(record, Invite(x.payload.inviteId, x.payload.inviteSecret))
  }

  predicate Stored(s: State, seed: string) { seed in HeldSeeds(s.doc) || seed in s.erased }

  /** A request that can no longer be applied. */
  predicate Dead(s: State, x: Request) { x in s.refused || x.slot in s.applied }

  /** Anything a bus might still apply has its seeds on disk. */
  predicate Safe(s: State, x: Request) { Stored(s, SeedOf(x)) || Dead(s, x) }

  /** What a returned attempt was told is still true. */
  predicate Witnessed(s: State, a: Attempt) {
    a.phase.Returned? ==>
      match a.phase.outcome
      case Enrolled(agentId, _, _) => AppliedAs(s, RequestOf(a)) && agentId == s.applied[SlotOf(a.record)].agentId
      case Failed(f) => Drops(a.resumed, f) && f.status != 0 ==> RequestOf(a) in s.refused
  }

  predicate AttemptOk(s: State, a: Attempt) { Drawn(s, a.record) && Witnessed(s, a) && Safe(s, RequestOf(a)) }

  predicate SentOk(s: State, x: Request) {
    SeedOf(x) in s.drawn && Carries(x, s.drawn[SeedOf(x)]) && Safe(s, x)
  }

  /** The bus applied what was sent and never refused, and its seeds are on disk or were erased. */
  predicate GrantOk(s: State, k: Slot)
    requires k in s.applied
  {
    var x := Request(k, s.applied[k].payload);
    x in s.sent && x !in s.refused && Stored(s, SeedOf(x))
  }

  predicate Backs(s: State, k: Slot, c: Credential) {
    && k in s.applied
    && s.applied[k].agentId == c.agentId
    && s.applied[k].payload.authKey.seed == c.authSeed
    && c.authSeed in s.drawn
    && (s.drawn[c.authSeed].messagingSeed != "" ==> c.messagingSeed == s.drawn[c.authSeed].messagingSeed)
  }

  ghost predicate CredentialOk(s: State, c: Credential) { exists k :: Backs(s, k, c) }

  predicate Finished(s: State, k: Slot) {
    k in s.applied
    && (s.applied[k].payload.authKey.seed in CredentialSeeds(s.doc) || s.applied[k].payload.authKey.seed in s.erased)
  }

  /** The owner's record stays until its slot is finished, and everybody sends the owner's request. */
  ghost predicate OwnerOk(s: State, q: Pid)
    requires q in s.attempts
  {
    var a := s.attempts[q];
    && (a.record in s.doc.pending || Finished(s, SlotOf(a.record)))
    && (forall x :: x in s.sent && SeedOf(x) == a.record.authSeed ==> x == RequestOf(a))
    && (forall q' :: q' in s.attempts && s.attempts[q'].record == a.record ==> s.attempts[q'].invite == a.invite)
  }

  ghost predicate DistinctOwners(s: State) {
    forall q, q' :: Owns(s, q) && Owns(s, q') && s.attempts[q].record == s.attempts[q'].record ==> q == q'
  }

  ghost predicate RecordsOk(s: State) {
    && OnePerSlot(s.doc.pending)
    && (forall seed :: seed in s.drawn ==> s.drawn[seed].authSeed == seed)
    && (forall p :: p in s.doc.pending ==> Drawn(s, p))
  }

  ghost predicate AttemptsOk(s: State) { forall q :: q in s.attempts ==> AttemptOk(s, s.attempts[q]) }

  ghost predicate SentsOk(s: State) { forall x :: x in s.sent ==> SentOk(s, x) }

  ghost predicate GrantsOk(s: State) { forall k :: k in s.applied ==> GrantOk(s, k) }

  ghost predicate CredentialsOk(s: State) { forall c :: c in s.doc.credentials ==> CredentialOk(s, c) }

  ghost predicate OwnersOk(s: State) { DistinctOwners(s) && forall q :: Owns(s, q) ==> OwnerOk(s, q) }

  ghost predicate Inv(s: State) {
    && RecordsOk(s) && DistinctIds(s)
    && AttemptsOk(s) && SentsOk(s) && GrantsOk(s) && CredentialsOk(s) && OwnersOk(s)
  }

  lemma GrantRecoverable(s: State, k: Slot)
    requires RecordsOk(s) && SentsOk(s) && CredentialsOk(s) && k in s.applied && GrantOk(s, k)
    ensures Recoverable(s, s.applied[k].payload)
  {
    var p := s.applied[k].payload;
    var seed := p.authKey.seed;
    assert SentOk(s, Request(k, p));
    if seed !in s.erased {
      if seed in PendingSeeds(s.doc) {
        var r :| r in s.doc.pending && r.authSeed == seed;
        assert Drawn(s, r) && Seeds(r.authSeed, r.messagingSeed, p);
      } else {
        var c :| c in s.doc.credentials && c.authSeed == seed;
        assert CredentialOk(s, c);
        assert Seeds(c.authSeed, c.messagingSeed, p);
      }
    }
  }

  /** The invariant gives the theorem. */
  lemma InvGivesNoOrphans(s: State)
    requires Inv(s)
    ensures NoOrphans(s)
  {
    forall k | k in s.applied ensures Recoverable(s, s.applied[k].payload) { GrantRecoverable(s, k); }
  }

  // ----- Histories only grow --------------------------------------------------

  ghost predicate Later(s: State, s': State) {
    && (forall seed :: seed in s.drawn ==> seed in s'.drawn && s'.drawn[seed] == s.drawn[seed])
    && (forall k :: k in s.applied ==> k in s'.applied && s'.applied[k] == s.applied[k])
    && s.refused <= s'.refused
    && s.sent <= s'.sent
    && s.erased <= s'.erased
    && CredentialSeeds(s.doc) <= CredentialSeeds(s'.doc) + s'.erased
  }

  lemma CarryAttempt(s: State, s': State, a: Attempt)
    requires Later(s, s') && AttemptOk(s, a) && Safe(s', RequestOf(a))
    ensures AttemptOk(s', a)
  {
  }

  lemma CarryCredential(s: State, s': State, c: Credential)
    requires Later(s, s') && CredentialOk(s, c)
    ensures CredentialOk(s', c)
  {
    var k :| Backs(s, k, c);
    assert Backs(s', k, c);
  }

  lemma CarryFinished(s: State, s': State, k: Slot)
    requires Later(s, s') && Finished(s, k)
    ensures Finished(s', k)
  {
  }

  /** No seed leaves the document unless it is counted as erased. */
  ghost predicate Quiet(s: State, s': State) {
    && Later(s, s')
    && HeldSeeds(s.doc) <= HeldSeeds(s'.doc) + s'.erased
  }

  lemma QuietSafe(s: State, s': State, x: Request)
    requires Quiet(s, s') && Safe(s, x)
    ensures Safe(s', x)
  {
  }

  // One lemma per conjunct of the invariant, for steps that change little of it.

  lemma CarryAttempts(s: State, s': State)
    requires Later(s, s') && AttemptsOk(s)
    requires forall q :: q in s'.attempts ==>
                           || AttemptOk(s', s'.attempts[q])
                           || (q in s.attempts && s'.attempts[q] == s.attempts[q] && Safe(s', RequestOf(s.attempts[q])))
    ensures AttemptsOk(s')
  {
    forall q | q in s'.attempts ensures AttemptOk(s', s'.attempts[q]) {
      if !AttemptOk(s', s'.attempts[q]) { CarryAttempt(s, s', s.attempts[q]); }
    }
  }

  lemma QuietAttempts(s: State, s': State)
    requires Quiet(s, s') && AttemptsOk(s)
    requires forall q :: q in s'.attempts ==>
                           (q in s.attempts && s'.attempts[q] == s.attempts[q]) || AttemptOk(s', s'.attempts[q])
    ensures AttemptsOk(s')
  {
    forall q | q in s'.attempts && q in s.attempts && s'.attempts[q] == s.attempts[q]
      ensures Safe(s', RequestOf(s.attempts[q]))
    {
      QuietSafe(s, s', RequestOf(s.attempts[q]));
    }
    CarryAttempts(s, s');
  }

  lemma QuietSents(s: State, s': State)
    requires Quiet(s, s') && SentsOk(s)
    requires forall x :: x in s'.sent ==> x in s.sent || SentOk(s', x)
    ensures SentsOk(s')
  {
    forall x | x in s.sent ensures SentOk(s', x) { QuietSafe(s, s', x); }
  }

  lemma QuietGrants(s: State, s': State)
    requires Quiet(s, s') && GrantsOk(s) && s'.applied == s.applied && s'.refused == s.refused
    ensures GrantsOk(s')
  {
    forall k | k in s'.applied ensures GrantOk(s', k) { assert GrantOk(s, k); }
  }

  lemma LaterCredentials(s: State, s': State)
    requires Later(s, s') && CredentialsOk(s)
    requires forall c :: c in s'.doc.credentials ==> c in s.doc.credentials || CredentialOk(s', c)
    ensures CredentialsOk(s')
  {
    forall c | c in s'.doc.credentials && c in s.doc.credentials ensures CredentialOk(s', c) { CarryCredential(s, s', c); }
  }

  /** Nobody sends or starts; attempts may end, and an owner's record goes only when its slot is finished. */
  lemma LaterOwners(s: State, s': State)
    requires Later(s, s') && OwnersOk(s) && s'.sent == s.sent
    requires forall q :: q in s'.attempts ==> q in s.attempts && s'.attempts[q] == s.attempts[q]
    requires forall q :: Owns(s', q) && s.attempts[q].record in s.doc.pending ==>
                           s.attempts[q].record in s'.doc.pending || Finished(s', SlotOf(s.attempts[q].record))
    ensures OwnersOk(s')
  {
    forall q | Owns(s', q) ensures OwnerOk(s', q) {
      assert Owns(s, q) && OwnerOk(s, q);
      if s.attempts[q].record !in s.doc.pending { CarryFinished(s, s', SlotOf(s.attempts[q].record)); }
    }
  }

  // ----- Every step keeps it --------------------------------------------------

  lemma ApplyGrants(s: State, r: Request, agentId: string, s': State)
    requires GrantsOk(s) && SentOk(s, r) && r in s.sent && r !in s.refused && r.slot !in s.applied
    requires s' == s.(applied := s.applied[r.slot := Grant(r.payload, agentId)])
    requires DistinctIds(s) && forall k :: k in s.applied ==> s.applied[k].agentId != agentId
    ensures GrantsOk(s') && DistinctIds(s')
  {
    forall k | k in s'.applied ensures GrantOk(s', k) { assert k != r.slot ==> GrantOk(s, k); }
  }

  lemma ApplyKeeps(s: State, r: Request, agentId: string, s': State)
    requires Inv(s) && r in s.sent && r !in s.refused && r.slot !in s.applied
    requires forall k :: k in s.applied ==> s.applied[k].agentId != agentId
    requires s' == s.(applied := s.applied[r.slot := Grant(r.payload, agentId)])
    ensures Inv(s')
  {
    assert Quiet(s, s');
    ApplyGrants(s, r, agentId, s');
    QuietAttempts(s, s');
    QuietSents(s, s');
    LaterCredentials(s, s');
    LaterOwners(s, s');
  }

  lemma RefuseKeeps(s: State, r: Request, s': State)
    requires Inv(s) && !AppliedAs(s, r) && s' == s.(refused := s.refused + {r})
    ensures Inv(s')
  {
    assert Quiet(s, s');
    forall k | k in s'.applied ensures GrantOk(s', k) { assert GrantOk(s, k); }
    QuietAttempts(s, s');
    QuietSents(s, s');
    LaterCredentials(s, s');
    LaterOwners(s, s');
  }

  lemma PhaseChangeOwners(s: State, pid: Pid, a': Attempt, s': State)
    requires OwnersOk(s) && pid in s.attempts && a' == s.attempts[pid].(phase := a'.phase)
    requires s' == s.(attempts := s.attempts[pid := a'], history := s'.history)
    ensures OwnersOk(s')
  {
    forall q | Owns(s', q) ensures OwnerOk(s', q) { assert Owns(s, q) && OwnerOk(s, q); }
  }

  lemma PhaseChangeAttempts(s: State, pid: Pid, a': Attempt, s': State)
    requires AttemptsOk(s) && AttemptOk(s, a')
    requires s' == s.(attempts := s.attempts[pid := a'], history := s'.history)
    ensures Quiet(s, s') && AttemptsOk(s')
  {
    assert AttemptOk(s', a');
    QuietAttempts(s, s');
  }

  /** Nothing but the phase of one attempt changes. */
  lemma PhaseChangeKeeps(s: State, pid: Pid, a': Attempt, s': State)
    requires Inv(s) && pid in s.attempts && a' == s.attempts[pid].(phase := a'.phase) && AttemptOk(s, a')
    requires s' == s.(attempts := s.attempts[pid := a'], history := s'.history)
    ensures Inv(s')
  {
    PhaseChangeAttempts(s, pid, a', s');
    QuietSents(s, s');
    QuietGrants(s, s');
    LaterCredentials(s, s');
    PhaseChangeOwners(s, pid, a', s');
  }

  lemma SendingOwners(s: State, pid: Pid, s': State)
    requires OwnersOk(s) && AttemptsOk(s) && pid in s.attempts && s' == s.(sent := s.sent + {RequestOf(s.attempts[pid])})
    ensures OwnersOk(s')
  {
    forall q | Owns(s', q) ensures OwnerOk(s', q) {
      assert Owns(s, q) && OwnerOk(s, q) && AttemptOk(s, s.attempts[q]) && AttemptOk(s, s.attempts[pid]);
    }
  }

  lemma SendingSents(s: State, pid: Pid, s': State)
    requires SentsOk(s) && pid in s.attempts && AttemptOk(s, s.attempts[pid])
    requires RecordsOk(s) && s' == s.(sent := s.sent + {RequestOf(s.attempts[pid])})
    ensures Quiet(s, s') && SentsOk(s') && AttemptOk(s', s.attempts[pid])
  {
    assert SentOk(s', RequestOf(s.attempts[pid]));
    QuietSents(s, s');
  }

  /** One more transmission of a request that a live attempt carries. */
  lemma SendingKeeps(s: State, pid: Pid, s': State)
    requires Inv(s) && pid in s.attempts && s' == s.(sent := s.sent + {RequestOf(s.attempts[pid])})
    ensures Inv(s') && AttemptOk(s', s.attempts[pid])
  {
    SendingSents(s, pid, s');
    QuietAttempts(s, s');
    QuietGrants(s, s');
    LaterCredentials(s, s');
    SendingOwners(s, pid, s');
  }

  lemma TransmitKeeps(s: State, pid: Pid, s': State)
    requires Inv(s) && pid in s.attempts && s.attempts[pid].phase.Sending?
    requires s' == s.(sent := s.sent + {RequestOf(s.attempts[pid])}, history := s'.history,
                      attempts := s.attempts[pid := s.attempts[pid].(phase := Sending(true))])
    ensures Inv(s')
  {
    var s0 := s.(sent := s.sent + {RequestOf(s.attempts[pid])});
    SendingKeeps(s, pid, s0);
    PhaseChangeKeeps(s0, pid, s.attempts[pid].(phase := Sending(true)), s');
  }

  lemma ReturnKeeps(s: State, pid: Pid, o: Outcome, s': State)
    requires Inv(s) && pid in s.attempts && CanReturn(s, s.attempts[pid], o)
    requires s' == s.(attempts := s.attempts[pid := s.attempts[pid].(phase := Returned(o))])
    ensures Inv(s')
  {
    assert AttemptOk(s, s.attempts[pid]);
    PhaseChangeKeeps(s, pid, s.attempts[pid].(phase := Returned(o)), s');
  }

  lemma NewSeedUnseen(s: State, seed: string)
    requires SentsOk(s) && AttemptsOk(s) && seed !in s.drawn
    ensures Silent(s, seed)
    ensures forall q :: q in s.attempts ==> s.attempts[q].record.authSeed != seed
  {
    forall x | x in s.sent ensures SeedOf(x) != seed { assert SentOk(s, x); }
    forall q | q in s.attempts ensures s.attempts[q].record.authSeed != seed { assert AttemptOk(s, s.attempts[q]); }
  }

  lemma DrawRecords(s: State, want: Pending, s': State)
    requires RecordsOk(s) && want.authSeed !in s.drawn && OnePerSlot(s'.doc.pending)
    requires s' == s.(doc := s'.doc, drawn := s.drawn[want.authSeed := want])
    requires s'.doc == s.doc || s'.doc == s.doc.(pending := s.doc.pending + [want])
    ensures Quiet(s, s') && RecordsOk(s')
  {
    assert Drawn(s', want);
  }

  /** A seed is drawn, and its record may enter the document; nobody has used it. */
  lemma DrawKeeps(s: State, want: Pending, s': State)
    requires Inv(s) && want.authSeed !in s.drawn && OnePerSlot(s'.doc.pending)
    requires s' == s.(doc := s'.doc, drawn := s.drawn[want.authSeed := want])
    requires s'.doc == s.doc || s'.doc == s.doc.(pending := s.doc.pending + [want])
    ensures Inv(s')
  {
    DrawRecords(s, want, s');
    QuietAttempts(s, s');
    QuietSents(s, s');
    QuietGrants(s, s');
    LaterCredentials(s, s');
    LaterOwners(s, s');
  }

  lemma OneMore(pending: seq<Pending>, want: Pending)
    requires OnePerSlot(pending) && FindPending(pending, want.key, want.busUrl).None?
    ensures OnePerSlot(pending + [want])
  {
    forall p | p in pending ensures SlotOf(p) != SlotOf(want) {}
  }

  lemma JoinOwners(s: State, pid: Pid, a: Attempt, s': State)
    requires OwnersOk(s) && pid !in s.attempts && a.record in s.doc.pending
    requires s' == s.(attempts := s.attempts[pid := a], history := s'.history)
    requires forall q :: Owns(s, q) && s.attempts[q].record == a.record ==> a.resumed && s.attempts[q].invite == a.invite
    requires !a.resumed ==> Silent(s, a.record.authSeed) && forall q :: q in s.attempts ==> s.attempts[q].record != a.record
    ensures OwnersOk(s')
  {
    forall q | Owns(s', q) ensures OwnerOk(s', q) { assert q != pid ==> Owns(s, q) && OwnerOk(s, q); }
  }

  lemma JoinAttempts(s: State, pid: Pid, a: Attempt, s': State)
    requires RecordsOk(s) && AttemptsOk(s) && a.record in s.doc.pending && a.phase == Sending(false)
    requires s' == s.(attempts := s.attempts[pid := a], history := s'.history)
    ensures Quiet(s, s') && AttemptsOk(s')
  {
    assert Drawn(s, a.record) && a.record.authSeed in PendingSeeds(s.doc);
    assert AttemptOk(s', a);
    QuietAttempts(s, s');
  }

  /** An attempt joins a record that is in the document. */
  lemma JoinKeeps(s: State, pid: Pid, a: Attempt, s': State)
    requires Inv(s) && pid !in s.attempts && a.record in s.doc.pending && a.phase == Sending(false)
    requires s' == s.(attempts := s.attempts[pid := a], history := s'.history)
    requires forall q :: Owns(s, q) && s.attempts[q].record == a.record ==> a.resumed && s.attempts[q].invite == a.invite
    requires !a.resumed ==> Silent(s, a.record.authSeed) && forall q :: q in s.attempts ==> s.attempts[q].record != a.record
    ensures Inv(s')
  {
    JoinAttempts(s, pid, a, s');
    QuietSents(s, s');
    QuietGrants(s, s');
    LaterCredentials(s, s');
    JoinOwners(s, pid, a, s');
  }

  lemma StartFreshKeeps(s: State, pid: Pid, want: Pending, a: Attempt, s': State)
    requires Inv(s) && pid !in s.attempts && want.authSeed !in s.drawn
    requires FindPending(s.doc.pending, want.key, want.busUrl).None?
    requires a.record == want && !a.resumed && a.phase == Sending(false)
    requires s' == s.(doc := s.doc.(pending := s.doc.pending + [want]), drawn := s.drawn[want.authSeed := want],
                      attempts := s.attempts[pid := a], history := s'.history)
    ensures Inv(s')
  {
    var s0 := s.(doc := s.doc.(pending := s.doc.pending + [want]), drawn := s.drawn[want.authSeed := want]);
    NewSeedUnseen(s, want.authSeed);
    OneMore(s.doc.pending, want);
    DrawKeeps(s, want, s0);
    JoinKeeps(s0, pid, a, s');
  }

  lemma StartResumedKeeps(s: State, pid: Pid, want: Pending, a: Attempt, s': State)
    requires Inv(s) && pid !in s.attempts && want.authSeed !in s.drawn
    requires a.record in s.doc.pending && a.resumed && a.phase == Sending(false)
    requires forall q :: Owns(s, q) && s.attempts[q].record == a.record ==> s.attempts[q].invite == a.invite
    requires s' == s.(drawn := s.drawn[want.authSeed := want], attempts := s.attempts[pid := a], history := s'.history)
    ensures Inv(s')
  {
    var s0 := s.(drawn := s.drawn[want.authSeed := want]);
    DrawKeeps(s, want, s0);
    JoinKeeps(s0, pid, a, s');
  }

  lemma StartKeeps(s: State, e: ProcessEvent)
    requires Inv(s) && CanAct(s, e) && ActsDisciplined(s, e) && e.Start?
    ensures Inv(Acted(s, e))
  {
    var s', want := Acted(s, e), e.want;
    match Decide(s.doc, want)
    case Fresh(record) => StartFreshKeeps(s, e.pid, want, s'.attempts[e.pid], s');
    case Resumed(record) => StartResumedKeeps(s, e.pid, want, s'.attempts[e.pid], s');
    case _ => DrawKeeps(s, want, s');
  }

  /** Records and credentials are rewritten; a seed that goes counts as erased. */
  lemma RewriteKeeps(s: State, s': State)
    requires Inv(s) && KeepsOwned(s, s'.doc) && Quiet(s, s')
    requires s' == s.(doc := s'.doc, erased := s'.erased, history := s'.history)
    requires forall p :: p in s'.doc.pending ==> p in s.doc.pending
    requires forall c :: c in s'.doc.credentials ==> c in s.doc.credentials || CredentialOk(s, c)
    ensures Inv(s')
  {
    forall c | c in s'.doc.credentials ensures CredentialOk(s', c) { CarryCredential(s, s', c); }
    QuietAttempts(s, s');
    QuietSents(s, s');
    QuietGrants(s, s');
    LaterOwners(s, s');
  }

  lemma ErasedQuiet(s: State, s': State)
    requires s' == s.(doc := s'.doc, erased := s'.erased, history := s'.history)
    requires s'.erased == s.erased + (PendingSeeds(s.doc) - PendingSeeds(s'.doc))
                          + (CredentialSeeds(s.doc) - CredentialSeeds(s'.doc))
    ensures Quiet(s, s')
  {
  }

  /** An edited credential keeps its keys, except for a messaging key it was never granted. */
  predicate Edits(was: Credential, c: Credential) {
    && c.agentId == was.agentId && c.authSeed == was.authSeed
    && (c.messagingSeed == was.messagingSeed || was.messagingSeed == "")
  }

  lemma RedonePending(d: Document, e: DocumentEvent)
    requires CanRewrite(d, e)
    ensures forall p :: p in Redone(d, e).pending ==> p in d.pending
  {
  }

  lemma RedoneCredentials(d: Document, e: DocumentEvent, c: Credential)
    requires CanRewrite(d, e) && c in Redone(d, e).credentials
    ensures exists was :: was in d.credentials && Edits(was, c)
  {
    var creds := Redone(d, e).credentials;
    if c in d.credentials {
      assert Edits(c, c);
    } else {
      var i :| 0 <= i < |creds| && creds[i] == c;
      assert e.Rebind? || e.Mint? || e.Repin?;
      assert d.credentials[i] in d.credentials && Edits(d.credentials[i], c);
    }
  }

  lemma EditedBacked(s: State, was: Credential, c: Credential)
    requires CredentialOk(s, was) && Edits(was, c)
    ensures CredentialOk(s, c)
  {
    var k :| Backs(s, k, was);
    assert Backs(s, k, c);
  }

  /** The operator's updates of the document, and the 24-hour rule. */
  lemma RewritesKeep(s: State, e: DocumentEvent, s': State)
    requires Inv(s) && CanRewrite(s.doc, e) && KeepsOwned(s, Redone(s.doc, e))
    requires s' == Erasing(s, Redone(s.doc, e))
    ensures Inv(s')
  {
    ErasedQuiet(s, s');
    RedonePending(s.doc, e);
    forall c | c in s'.doc.credentials ensures CredentialOk(s, c) {
      RedoneCredentials(s.doc, e, c);
      var was :| was in s.doc.credentials && Edits(was, c);
      EditedBacked(s, was, c);
    }
    RewriteKeeps(s, s');
  }

  // ----- Settling -------------------------------------------------------------

  /** `s'` is `s` without attempt `pid` and without the pending record at `k`. */
  ghost predicate Vacated(s: State, pid: Pid, k: Slot, s': State) {
    && pid in s.attempts && s'.attempts == s.attempts - {pid}
    && s'.doc.pending == RemovePending(s.doc.pending, k.key, k.busUrl)
    && s'.sent == s.sent && s'.applied == s.applied && s'.refused == s.refused
    && s'.drawn == s.drawn && s'.erased == s.erased
    && CredentialSeeds(s.doc) <= CredentialSeeds(s'.doc)
  }

  /** A seed that is no longer stored was the seed of a record at the vacated slot. */
  lemma VacatedSeed(s: State, pid: Pid, k: Slot, s': State, seed: string) returns (r: Pending)
    requires RecordsOk(s) && Vacated(s, pid, k, s') && Stored(s, seed) && !Stored(s', seed)
    ensures r in s.doc.pending && r.authSeed == seed && SlotOf(r) == k && Drawn(s, r)
  {
    r :| r in s.doc.pending && r.authSeed == seed;
    assert r !in s'.doc.pending;
  }

  lemma VacatedRecords(s: State, pid: Pid, k: Slot, s': State)
    requires Vacated(s, pid, k, s') && RecordsOk(s) && DistinctIds(s)
    ensures Later(s, s') && RecordsOk(s') && DistinctIds(s')
  {
  }

  lemma FinishedSlotSafe(s: State, pid: Pid, k: Slot, s': State, x: Request)
    requires RecordsOk(s) && Vacated(s, pid, k, s') && Finished(s', k) && Safe(s, x)
    requires SeedOf(x) in s.drawn && Carries(x, s.drawn[SeedOf(x)])
    ensures Safe(s', x)
  {
    if !Dead(s, x) && !Stored(s', SeedOf(x)) { var r := VacatedSeed(s, pid, k, s', SeedOf(x)); }
  }

  lemma FinishedSlotGrant(s: State, pid: Pid, k: Slot, s': State, g: Slot)
    requires RecordsOk(s) && SentsOk(s) && Vacated(s, pid, k, s') && Finished(s', k)
    requires g in s.applied && GrantOk(s, g)
    ensures GrantOk(s', g)
  {
    var x := Request(g, s.applied[g].payload);
    assert SentOk(s, x);
    if !Stored(s', SeedOf(x)) { var r := VacatedSeed(s, pid, k, s', SeedOf(x)); }
  }

  /** Once the bus has granted the slot and the grant's keys are filed, its pending record can go. */
  lemma FinishedSlotKeeps(s: State, pid: Pid, k: Slot, s': State)
    requires Inv(s) && Vacated(s, pid, k, s') && Finished(s', k)
    requires forall c :: c in s'.doc.credentials ==> c in s.doc.credentials || CredentialOk(s', c)
    ensures Inv(s')
  {
    VacatedRecords(s, pid, k, s');
    forall q | q in s'.attempts ensures Safe(s', RequestOf(s.attempts[q])) {
      assert AttemptOk(s, s.attempts[q]);
      FinishedSlotSafe(s, pid, k, s', RequestOf(s.attempts[q]));
    }
    CarryAttempts(s, s');
    forall x | x in s'.sent ensures SentOk(s', x) { FinishedSlotSafe(s, pid, k, s', x); }
    forall g | g in s'.applied ensures GrantOk(s', g) { FinishedSlotGrant(s, pid, k, s', g); }
    LaterCredentials(s, s');
    LaterOwners(s, s');
  }

  /** The owner may drop its record: the bus refused it, or nobody else has used it. */
  ghost predicate MayDrop(s: State, pid: Pid) {
    && Owns(s, pid) && s.attempts[pid].record in s.doc.pending
    && var a := s.attempts[pid];
       || RequestOf(a) in s.refused
       || (Silent(s, a.record.authSeed) && forall q :: q in s.attempts && q != pid ==> s.attempts[q].record != a.record)
  }

  lemma DroppedSent(s: State, pid: Pid, s': State, x: Request)
    requires RecordsOk(s) && MayDrop(s, pid) && OwnerOk(s, pid)
    requires Vacated(s, pid, SlotOf(s.attempts[pid].record), s') && x in s.sent && SentOk(s, x)
    ensures Safe(s', x)
    ensures x !in s.refused && Stored(s, SeedOf(x)) ==> Stored(s', SeedOf(x))
  {
    if Stored(s, SeedOf(x)) && !Stored(s', SeedOf(x)) {
      var r := VacatedSeed(s, pid, SlotOf(s.attempts[pid].record), s', SeedOf(x));
      assert r == s.attempts[pid].record;
    }
  }

  lemma DroppedAttempt(s: State, pid: Pid, s': State, q: Pid)
    requires RecordsOk(s) && MayDrop(s, pid) && OwnerOk(s, pid)
    requires Vacated(s, pid, SlotOf(s.attempts[pid].record), s') && q in s'.attempts && AttemptOk(s, s.attempts[q])
    ensures Safe(s', RequestOf(s.attempts[q]))
  {
    var x := RequestOf(s.attempts[q]);
    if !Dead(s, x) && !Stored(s', SeedOf(x)) {
      var r := VacatedSeed(s, pid, SlotOf(s.attempts[pid].record), s', SeedOf(x));
    }
  }

  lemma DroppedGrants(s: State, pid: Pid, s': State)
    requires RecordsOk(s) && SentsOk(s) && GrantsOk(s) && MayDrop(s, pid) && OwnerOk(s, pid)
    requires Vacated(s, pid, SlotOf(s.attempts[pid].record), s')
    ensures GrantsOk(s')
  {
    forall g | g in s'.applied ensures GrantOk(s', g) {
      assert GrantOk(s, g);
      DroppedSent(s, pid, s', Request(g, s.applied[g].payload));
    }
  }

  lemma DroppedOwners(s: State, pid: Pid, s': State)
    requires OwnersOk(s) && RecordsOk(s) && MayDrop(s, pid) && Later(s, s')
    requires Vacated(s, pid, SlotOf(s.attempts[pid].record), s')
    ensures OwnersOk(s')
  {
    forall q | Owns(s', q) && s.attempts[q].record in s.doc.pending ensures s.attempts[q].record in s'.doc.pending {
      assert Owns(s, q) && s.attempts[q].record != s.attempts[pid].record;
    }
    LaterOwners(s, s');
  }

  /** The owner's own record is dropped: nothing under its seeds can ever be applied. */
  lemma OwnRecordKeeps(s: State, pid: Pid, s': State)
    requires Inv(s) && MayDrop(s, pid) && Vacated(s, pid, SlotOf(s.attempts[pid].record), s')
    requires s'.doc.credentials == s.doc.credentials
    ensures Inv(s')
  {
    VacatedRecords(s, pid, SlotOf(s.attempts[pid].record), s');
    assert OwnerOk(s, pid);
    forall q | q in s'.attempts ensures Safe(s', RequestOf(s.attempts[q])) { DroppedAttempt(s, pid, s', q); }
    CarryAttempts(s, s');
    forall x | x in s'.sent ensures SentOk(s', x) { DroppedSent(s, pid, s', x); }
    DroppedGrants(s, pid, s');
    LaterCredentials(s, s');
    DroppedOwners(s, pid, s');
  }

  lemma KeptKeeps(s: State, pid: Pid, s': State)
    requires Inv(s) && s' == s.(attempts := s.attempts - {pid})
    ensures Inv(s')
  {
    assert Quiet(s, s');
    QuietAttempts(s, s');
    QuietSents(s, s');
    QuietGrants(s, s');
    LaterCredentials(s, s');
    LaterOwners(s, s');
  }

  lemma ReplaceSeeds(creds: seq<Credential>, creds': seq<Credential>, i: nat, c: Credential)
    requires i < |creds| ==> creds' == creds[i := c] && creds[i].authSeed == c.authSeed
    requires i >= |creds| ==> creds' == creds + [c]
    ensures forall x :: x in creds ==> exists y :: y in creds' && y.authSeed == x.authSeed
    ensures c in creds'
    ensures forall y :: y in creds' ==> y in creds || y == c
  {
    if i < |creds| { assert creds'[i] == c; } else { assert creds'[|creds|] == c; }
    forall x | x in creds ensures exists y :: y in creds' && y.authSeed == x.authSeed {
      var j :| 0 <= j < |creds| && creds[j] == x;
      assert creds'[j] in creds' && creds'[j].authSeed == x.authSeed;
    }
  }

  lemma PromoteKeeps(s: State, pid: Pid, cred: Credential, makeCurrent: bool, s': State)
    requires Inv(s) && pid in s.attempts
    requires var a := s.attempts[pid];
             && AppliedAs(s, RequestOf(a)) && cred.agentId == s.applied[SlotOf(a.record)].agentId
             && cred.busUrl == a.record.busUrl && cred.authSeed == a.record.authSeed
             && cred.messagingSeed == a.record.messagingSeed
             && s' == Rewritten(s.(attempts := s.attempts - {pid}), Promoted(s.doc, a.record.key, cred, makeCurrent))
    ensures Inv(s')
  {
    var a := s.attempts[pid];
    var k := SlotOf(a.record);
    assert AttemptOk(s, a);
    assert Backs(s', k, cred);
    var i := FindCredential(s.doc.credentials, cred.agentId);
    if i < |s.doc.credentials| {
      assert CredentialOk(s, s.doc.credentials[i]);
      var g :| Backs(s, g, s.doc.credentials[i]);
      assert g == k;
    }
    ReplaceSeeds(s.doc.credentials, s'.doc.credentials, i, cred);
    FinishedSlotKeeps(s, pid, k, s');
  }

  lemma SettleKeeps(s: State, e: ProcessEvent)
    requires Inv(s) && CanAct(s, e) && ActsDisciplined(s, e) && e.Settle?
    ensures Inv(Acted(s, e))
  {
    var s', a := Acted(s, e), s.attempts[e.pid];
    var k := SlotOf(a.record);
    assert AttemptOk(s, a);
    match a.phase.outcome
    case Enrolled(_, _, _) =>
      PromoteKeeps(s, e.pid, CredentialFor(a.record, a.phase.outcome, e.fingerprints), e.makeCurrent, s');
    case Failed(f) =>
      if Drops(a.resumed, f) {
        assert OwnerOk(s, e.pid);
        if a.record in s.doc.pending { OwnRecordKeeps(s, e.pid, s'); } else { FinishedSlotKeeps(s, e.pid, k, s'); }
      } else {
        KeptKeeps(s, e.pid, s');
      }
  }

  // ----- Whole runs -----------------------------------------------------------

  ghost predicate DisciplinedRun(s: State, run: seq<Event>)
    requires Possible(s, run)
    decreases |run|
  {
    run == [] || (Disciplined(s, run[0]) && DisciplinedRun(Step(s, run[0]), run[1..]))
  }

  lemma ActsKeep(s: State, p: ProcessEvent)
    requires Inv(s) && CanAct(s, p) && ActsDisciplined(s, p)
    ensures Inv(Acted(s, p))
  {
    match p
    case Start(_, _, _) => StartKeeps(s, p);
    case Transmit(pid) => TransmitKeeps(s, pid, Acted(s, p));
    case Return(pid, o) => ReturnKeeps(s, pid, o, Acted(s, p));
    case Settle(_, _, _) => SettleKeeps(s, p);
    case Crash(pid) => KeptKeeps(s, pid, Acted(s, p));
    case SendUnsaved(_, _) =>
  }

  lemma AnswersKeep(s: State, b: BusEvent)
    requires Inv(s) && CanAnswer(s, b)
    ensures Inv(Answered(s, b))
  {
    match b
    case Apply(r, agentId) => ApplyKeeps(s, r, agentId, Answered(s, b));
    case Refuse(r) => RefuseKeeps(s, r, Answered(s, b));
  }

  lemma StepKeeps(s: State, e: Event)
    requires Inv(s) && Enabled(s, e) && Disciplined(s, e)
    ensures Inv(Step(s, e))
  {
    match e
    case Acts(p) => ActsKeep(s, p);
    case Answers(b) => AnswersKeep(s, b);
    case Rewrites(d) => RewritesKeep(s, d, Erasing(s, Redone(s.doc, d)));
  }

  lemma {:induction false} RunKeeps(s: State, run: seq<Event>)
    requires Inv(s) && Possible(s, run) && DisciplinedRun(s, run)
    ensures Inv(After(s, run))
    decreases |run|
  {
    if run != [] {
      StepKeeps(s, run[0]);
      RunKeeps(Step(s, run[0]), run[1..]);
    }
  }

  /** Over every disciplined run, with crashes, lost answers and resumes, no granted identity is orphaned. */
  lemma NoIdentityIsOrphaned(run: seq<Event>)
    requires Possible(INITIAL, run) && DisciplinedRun(INITIAL, run)
    ensures NoOrphans(After(INITIAL, run))
  {
    RunKeeps(INITIAL, run);
    InvGivesNoOrphans(After(INITIAL, run));
  }
}
