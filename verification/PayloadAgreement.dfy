/**
 Same key, same payload: in every run, disciplined or not, which of the requests
 sent under one (key, bus) carry the same keys.

 Key material is drawn when a slot is empty and resumed while it is not. So the
 requests sent at a slot carry the same keys exactly when their attempts were
 claimed in the same period of the slot, between two moments at which the document
 holds nothing there. A call that does not save agrees with nothing but itself.
 */
module PayloadAgreement {
  import opened CredentialStore
  import opened Enrolment

  function RequestBy(c: Claimant): Request { RequestFor(c.record, c.invite) }

  ghost predicate ClaimantOk(s: State, c: Claimant) {
    && Drawn(s, c.record)
    && (c.record.inviteId != "" ==> c.invite.id == c.record.inviteId)
    && match c.origin
       case Unsaved(call) => call < |s.drawn| && c.record !in s.doc.pending
       case Saved(period) => PeriodOk(s, c.record, period)
  }

  /** A record of the current period is the only one its slot may hold; one of an earlier period is gone for good. */
  ghost predicate PeriodOk(s: State, record: Pending, period: nat) {
    var k := SlotOf(record);
    && period <= Period(s.history, k)
    && (period < Period(s.history, k) ==> record !in s.doc.pending)
    && (period == Period(s.history, k) ==>
          k in Held(s.doc) && forall p :: p in s.doc.pending && SlotOf(p) == k ==> p == record)
  }

  ghost predicate OneRecordPerOrigin(claims: set<Claimant>) {
    forall c, c' :: c in claims && c' in claims && SlotOf(c.record) == SlotOf(c'.record) ==>
                      (c.origin == c'.origin <==> c.record == c'.record)
  }

  ghost predicate Documented(s: State) {
    && OnePerSlot(s.doc.pending)
    && (forall seed :: seed in s.drawn ==> s.drawn[seed].authSeed == seed)
    && (forall p :: p in s.doc.pending ==> Drawn(s, p))
  }

  ghost predicate ClaimsOk(s: State) {
    && OneRecordPerOrigin(s.history.claims)
    && forall c :: c in s.history.claims ==> ClaimantOk(s, c)
  }

  /** What is sent was transmitted for some claim, and live attempts are claims. */
  ghost predicate Traced(s: State) {
    && (forall q :: q in s.attempts ==> ClaimantOf(s.attempts[q]) in s.history.claims)
    && s.history.transmitted <= s.history.claims
    && s.sent == set c | c in s.history.transmitted :: RequestBy(c)
  }

  ghost predicate Agrees(s: State) { Documented(s) && ClaimsOk(s) && Traced(s) }

  // ----- Rewriting the document ------------------------------------------------

  lemma PeriodAdvances(h: History, gone: set<Slot>, k: Slot)
    ensures Period(Ended(h, gone), k) == Period(h, k) + (if k in gone then 1 else 0)
  {
  }

  lemma RewrittenClaimant(s: State, s': State, c: Claimant)
    requires ClaimantOk(s, c) && s'.drawn == s.drawn
    requires s'.history == Ended(s.history, Held(s.doc) - Held(s'.doc))
    requires forall p :: p in s'.doc.pending ==> p in s.doc.pending
    ensures ClaimantOk(s', c)
  {
    var k := SlotOf(c.record);
    PeriodAdvances(s.history, Held(s.doc) - Held(s'.doc), k);
    assert c.record in s'.doc.pending ==> k in Held(s'.doc);
  }

  /** The document loses records or credentials, or gains credentials. */
  lemma RewrittenAgrees(s: State, s': State)
    requires Agrees(s) && s' == s.(doc := s'.doc, attempts := s'.attempts, erased := s'.erased, history := s'.history)
    requires s'.history == Ended(s.history, Held(s.doc) - Held(s'.doc))
    requires forall p :: p in s'.doc.pending ==> p in s.doc.pending
    requires forall q :: q in s'.attempts ==> q in s.attempts && s'.attempts[q] == s.attempts[q]
    ensures Agrees(s')
  {
    forall c | c in s'.history.claims ensures ClaimantOk(s', c) { RewrittenClaimant(s, s', c); }
  }

  /** The document and the claims stay as they are. */
  lemma OutsideAgrees(s: State, s': State)
    requires Agrees(s) && s'.doc == s.doc && s'.history == s.history && s'.sent == s.sent && s'.drawn == s.drawn
    requires forall q :: q in s'.attempts ==> q in s.attempts && ClaimantOf(s'.attempts[q]) == ClaimantOf(s.attempts[q])
    ensures Agrees(s')
  {
    forall c | c in s'.history.claims ensures ClaimantOk(s', c) { assert ClaimantOk(s, c); }
  }

  // ----- Drawing and claiming --------------------------------------------------

  lemma DrawnMore(s: State, want: Pending, s': State)
    requires want.authSeed !in s.drawn && s'.drawn == s.drawn[want.authSeed := want]
    ensures |s'.drawn| == |s.drawn| + 1
    ensures forall r :: Drawn(s, r) ==> Drawn(s', r) && r != want
  {
    assert s'.drawn.Keys == s.drawn.Keys + {want.authSeed};
    assert |s'.drawn| == |s'.drawn.Keys| && |s.drawn| == |s.drawn.Keys|;
  }

  /** A seed is drawn and not used. */
  lemma DrawAgrees(s: State, want: Pending, s': State)
    requires Agrees(s) && want.authSeed !in s.drawn && s' == s.(drawn := s.drawn[want.authSeed := want])
    ensures Agrees(s')
  {
    DrawnMore(s, want, s');
    forall c | c in s'.history.claims ensures ClaimantOk(s', c) { assert ClaimantOk(s, c); }
  }

  lemma EmptySlot(s: State, want: Pending)
    requires Decide(s.doc, want).Fresh?
    ensures SlotOf(want) !in Held(s.doc)
  {
    forall p | p in s.doc.pending ensures SlotOf(p) != SlotOf(want) { assert !PendingAt(p, want.key, want.busUrl); }
    forall c | c in s.doc.credentials ensures Slot(c.busUrl, c.key) != SlotOf(want) { assert !CredentialAt(c, want.key, want.busUrl); }
  }

  lemma FreshClaimant(s: State, want: Pending, s': State, c: Claimant)
    requires ClaimantOk(s, c) && want.authSeed !in s.drawn && SlotOf(want) !in Held(s.doc)
    requires s'.doc == s.doc.(pending := s.doc.pending + [want]) && s'.history.periods == s.history.periods
    requires s'.drawn == s.drawn[want.authSeed := want]
    ensures ClaimantOk(s', c)
  {
    DrawnMore(s, want, s');
    assert forall k :: k in Held(s.doc) ==> k in Held(s'.doc);
  }

  /** The record enters an empty slot: every claim there is of an earlier period. */
  lemma FreshAgrees(s: State, pid: Pid, want: Pending, a: Attempt, s': State)
    requires Agrees(s) && want.authSeed !in s.drawn && SlotOf(want) !in Held(s.doc)
    requires a.record == want && a.invite.id == want.inviteId && a.period == Period(s.history, SlotOf(want))
    requires s' == s.(doc := s.doc.(pending := s.doc.pending + [want]), drawn := s.drawn[want.authSeed := want],
                      attempts := s.attempts[pid := a], history := s.history.(claims := s.history.claims + {ClaimantOf(a)}))
    ensures Agrees(s')
  {
    DrawnMore(s, want, s');
    forall c | c in s.history.claims ensures ClaimantOk(s', c) && c.record != want {
      FreshClaimant(s, want, s', c);
      assert ClaimantOk(s, c);
    }
    FreshOrigin(s, ClaimantOf(a));
    FreshDocumented(s, want, s');
    assert SlotOf(want) in Held(s'.doc) by { assert want in s'.doc.pending; }
    assert ClaimantOk(s', ClaimantOf(a)) by {
      forall p | p in s'.doc.pending && SlotOf(p) == SlotOf(want) ensures p == want {
        assert p in s.doc.pending ==> SlotOf(p) in Held(s.doc);
      }
    }
  }

  lemma FreshOrigin(s: State, c: Claimant)
    requires ClaimsOk(s) && SlotOf(c.record) !in Held(s.doc) && c.origin == Saved(Period(s.history, SlotOf(c.record)))
    requires c.record.authSeed !in s.drawn
    ensures OneRecordPerOrigin(s.history.claims + {c})
  {
    forall b | b in s.history.claims && SlotOf(b.record) == SlotOf(c.record) ensures b.origin != c.origin && b.record != c.record {
      assert ClaimantOk(s, b);
    }
  }

  lemma FreshDocumented(s: State, want: Pending, s': State)
    requires Documented(s) && want.authSeed !in s.drawn && SlotOf(want) !in Held(s.doc)
    requires s'.doc == s.doc.(pending := s.doc.pending + [want]) && s'.drawn == s.drawn[want.authSeed := want]
    ensures Documented(s')
  {
    forall p | p in s.doc.pending ensures SlotOf(p) != SlotOf(want) { assert SlotOf(p) in Held(s.doc); }
    assert Drawn(s', want);
  }

  lemma ResumedOrigin(s: State, c: Claimant)
    requires ClaimsOk(s) && c.record in s.doc.pending && c.origin == Saved(Period(s.history, SlotOf(c.record)))
    ensures OneRecordPerOrigin(s.history.claims + {c})
  {
    forall b | b in s.history.claims && SlotOf(b.record) == SlotOf(c.record)
      ensures b.origin == c.origin <==> b.record == c.record
    {
      assert ClaimantOk(s, b);
    }
  }

  /** The record is at the slot: every claim of the current period is on it, and no other claim is. */
  lemma ResumedAgrees(s: State, pid: Pid, a: Attempt, s': State)
    requires Agrees(s) && a.record in s.doc.pending && a.period == Period(s.history, SlotOf(a.record))
    requires a.record.inviteId != "" ==> a.invite.id == a.record.inviteId
    requires s' == s.(attempts := s.attempts[pid := a], history := s.history.(claims := s.history.claims + {ClaimantOf(a)}))
    ensures Agrees(s')
  {
    ResumedOrigin(s, ClaimantOf(a));
    assert SlotOf(a.record) in Held(s.doc);
    forall c | c in s'.history.claims ensures ClaimantOk(s', c) { assert c != ClaimantOf(a) ==> ClaimantOk(s, c); }
  }

  lemma ResumeAfterDraw(s: State, pid: Pid, want: Pending, a: Attempt, s': State)
    requires Agrees(s) && want.authSeed !in s.drawn
    requires a.record in s.doc.pending && a.period == Period(s.history, SlotOf(a.record))
    requires a.record.inviteId != "" ==> a.invite.id == a.record.inviteId
    requires s' == s.(drawn := s.drawn[want.authSeed := want], attempts := s.attempts[pid := a],
                      history := s.history.(claims := s.history.claims + {ClaimantOf(a)}))
    ensures Agrees(s')
  {
    var s0 := s.(drawn := s.drawn[want.authSeed := want]);
    DrawAgrees(s, want, s0);
    ResumedAgrees(s0, pid, a, s');
  }

  lemma StartAgrees(s: State, e: ProcessEvent)
    requires Agrees(s) && CanAct(s, e) && e.Start?
    ensures Agrees(Acted(s, e))
  {
    var s', want := Acted(s, e), e.want;
    match Decide(s.doc, want)
    case Fresh(_) =>
      EmptySlot(s, want);
      FreshAgrees(s, e.pid, want, s'.attempts[e.pid], s');
    case Resumed(_) => ResumeAfterDraw(s, e.pid, want, s'.attempts[e.pid], s');
    case _ => DrawAgrees(s, want, s');
  }

  // ----- Sending ---------------------------------------------------------------

  lemma TransmitAgrees(s: State, pid: Pid, s': State)
    requires Agrees(s) && pid in s.attempts && pid in s'.attempts
    requires s' == s.(sent := s.sent + {RequestOf(s.attempts[pid])},
                      attempts := s.attempts[pid := s.attempts[pid].(phase := s'.attempts[pid].phase)],
                      history := s.history.(transmitted := s.history.transmitted + {ClaimantOf(s.attempts[pid])}))
    ensures Agrees(s')
  {
    forall c | c in s'.history.claims ensures ClaimantOk(s', c) { assert ClaimantOk(s, c); }
    TransmittedMore(s.history.transmitted, ClaimantOf(s.attempts[pid]));
  }

  lemma TransmittedMore(transmitted: set<Claimant>, c: Claimant)
    ensures (set b | b in transmitted + {c} :: RequestBy(b)) == (set b | b in transmitted :: RequestBy(b)) + {RequestBy(c)}
  {
  }

  lemma UnsavedClaims(s: State, c: Claimant, s': State)
    requires Documented(s) && ClaimsOk(s) && c.record.authSeed !in s.drawn && c.invite.id == c.record.inviteId
    requires c.origin == Unsaved(|s.drawn|) && s'.doc == s.doc && s'.history.periods == s.history.periods
    requires s'.drawn == s.drawn[c.record.authSeed := c.record] && s'.history.claims == s.history.claims + {c}
    ensures ClaimsOk(s')
  {
    DrawnMore(s, c.record, s');
    forall b | b in s.history.claims ensures ClaimantOk(s', b) && b.record != c.record && b.origin != c.origin {
      assert ClaimantOk(s, b);
    }
    assert Drawn(s', c.record) && forall p :: p in s.doc.pending ==> p != c.record;
  }

  lemma UnsavedAgrees(s: State, c: Claimant, s': State)
    requires Agrees(s) && c.record.authSeed !in s.drawn && c.invite.id == c.record.inviteId && c.origin == Unsaved(|s.drawn|)
    requires s' == s.(sent := s.sent + {RequestBy(c)}, drawn := s.drawn[c.record.authSeed := c.record],
                      history := s.history.(claims := s.history.claims + {c}, transmitted := s.history.transmitted + {c}))
    ensures Agrees(s')
  {
    UnsavedClaims(s, c, s');
    TransmittedMore(s.history.transmitted, c);
    DrawnMore(s, c.record, s');
  }

  // ----- Whole runs ------------------------------------------------------------

  lemma SettleAgrees(s: State, e: ProcessEvent)
    requires Agrees(s) && CanAct(s, e) && e.Settle?
    ensures Agrees(Acted(s, e))
  {
    var s', a := Acted(s, e), s.attempts[e.pid];
    if a.phase.outcome.Failed? && !Drops(a.resumed, a.phase.outcome.failure) {
      OutsideAgrees(s, s');
    } else {
      RewrittenAgrees(s, s');
    }
  }

  lemma RewritesAgree(s: State, e: DocumentEvent, s': State)
    requires Agrees(s) && CanRewrite(s.doc, e) && s' == Erasing(s, Redone(s.doc, e))
    ensures Agrees(s')
  {
    assert forall p :: p in Redone(s.doc, e).pending ==> p in s.doc.pending;
    RewrittenAgrees(s, s');
  }

  lemma ActsAgree(s: State, p: ProcessEvent)
    requires Agrees(s) && CanAct(s, p)
    ensures Agrees(Acted(s, p))
  {
    match p
    case Start(_, _, _) => StartAgrees(s, p);
    case Transmit(pid) => TransmitAgrees(s, pid, Acted(s, p));
    case SendUnsaved(want, invite) => UnsavedAgrees(s, Claimant(want, invite, Unsaved(|s.drawn|)), Acted(s, p));
    case Settle(_, _, _) => SettleAgrees(s, p);
    case _ => OutsideAgrees(s, Acted(s, p));
  }

  lemma StepAgrees(s: State, e: Event)
    requires Agrees(s) && Enabled(s, e)
    ensures Agrees(Step(s, e))
  {
    match e
    case Acts(p) => ActsAgree(s, p);
    case Answers(b) => OutsideAgrees(s, Answered(s, b));
    case Rewrites(d) => RewritesAgree(s, d, Erasing(s, Redone(s.doc, d)));
  }

  lemma {:induction false} RunAgrees(s: State, run: seq<Event>)
    requires Agrees(s) && Possible(s, run)
    ensures Agrees(After(s, run))
    decreases |run|
  {
    if run != [] {
      StepAgrees(s, run[0]);
      RunAgrees(Step(s, run[0]), run[1..]);
    }
  }

  /** Where the keys of a sent request came from. */
  ghost function Origins(s: State, x: Request): set<Origin> {
    set c | c in s.history.transmitted && RequestBy(c) == x :: c.origin
  }

  /**
   In every run, every request sent has one origin, and two requests sent at one slot
   carry the same authentication key if and only if they have the same one: the same
   period of the slot, or the same call that did not save. Then the name, the
   messaging key and, when the record names one, the invite id agree as well.
   */
  lemma PayloadsAgree(run: seq<Event>, x: Request, x': Request)
    requires Possible(INITIAL, run)
    requires x in After(INITIAL, run).sent && x' in After(INITIAL, run).sent && x.slot == x'.slot
    ensures SameKeysIffSameOrigin(After(INITIAL, run), x, x')
  {
    RunAgrees(INITIAL, run);
    SentAgree(After(INITIAL, run), x, x');
  }

  ghost predicate SameKeysIffSameOrigin(s: State, x: Request, x': Request) {
    && (exists o :: Origins(s, x) == {o})
    && (x.payload.authKey == x'.payload.authKey <==> Origins(s, x) == Origins(s, x'))
    && (Origins(s, x) == Origins(s, x') ==>
          && x.payload.name == x'.payload.name
          && x.payload.messagingKey == x'.payload.messagingKey
          && forall c :: c in s.history.transmitted && RequestBy(c) == x && c.record.inviteId != "" ==>
               Fingerprint(x.payload) == Fingerprint(x'.payload))
  }

  /** The record behind a sent request is determined by it. */
  lemma OneOrigin(s: State, x: Request, c: Claimant)
    requires Agrees(s) && c in s.history.transmitted && RequestBy(c) == x
    ensures Origins(s, x) == {c.origin}
    ensures forall b :: b in s.history.transmitted && RequestBy(b) == x ==> b.record == c.record
  {
    forall b | b in s.history.transmitted && RequestBy(b) == x ensures b.origin == c.origin && b.record == c.record {
      assert ClaimantOk(s, b) && ClaimantOk(s, c);
    }
  }

  lemma SentAgree(s: State, x: Request, x': Request)
    requires Agrees(s) && x in s.sent && x' in s.sent && x.slot == x'.slot
    ensures SameKeysIffSameOrigin(s, x, x')
  {
    var c :| c in s.history.transmitted && RequestBy(c) == x;
    var c' :| c' in s.history.transmitted && RequestBy(c') == x';
    OneOrigin(s, x, c);
    OneOrigin(s, x', c');
    assert ClaimantOk(s, c) && ClaimantOk(s, c');
    assert c.origin in {c.origin} && c'.origin in {c'.origin};
  }
}
