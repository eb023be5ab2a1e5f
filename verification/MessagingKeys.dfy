/**
 A messaging key minted after enrolment. An identity granted without one (its record
 predates the field) draws a seed at its first send. That seed is in no record, so a
 later promotion of the same identity overwrites it. Here is such a run, and exactly
 which steps lose the messaging seed of a stored identity.
 */
module MessagingKeys {
  import opened CredentialStore
  import opened Enrolment
  import opened EnrolmentHazards

  /** Some stored identity `agentId` has this messaging seed. */
  ghost predicate Has(creds: seq<Credential>, agentId: string, seed: string) {
    exists i :: 0 <= i < |creds| && creds[i].agentId == agentId && creds[i].messagingSeed == seed
  }

  ghost predicate DistinctAgents(creds: seq<Credential>) {
    forall i, j :: 0 <= i < j < |creds| ==> creds[i].agentId != creds[j].agentId
  }

  /** The logouts, and a promotion under a record that does not carry the seed. */
  predicate Loses(s: State, e: Event, c: Credential)
    requires Enabled(s, e)
  {
    match e
    case Acts(p) => PromotesOver(s, p, c)
    case Answers(_) => false
    case Rewrites(d) => LogsOut(d, c)
  }

  predicate PromotesOver(s: State, p: ProcessEvent, c: Credential)
    requires CanAct(s, p)
  {
    && p.Settle?
    && var a := s.attempts[p.pid];
       a.phase.outcome.Enrolled? && a.phase.outcome.agentId == c.agentId && a.record.messagingSeed != c.messagingSeed
  }

  predicate LogsOut(d: DocumentEvent, c: Credential) {
    d.LogoutAll? || (d.Logout? && d.credential.agentId == c.agentId)
  }

  lemma PromotedHas(d: Document, key: string, cred: Credential, makeCurrent: bool, c: Credential)
    requires c in d.credentials && DistinctAgents(d.credentials)
    ensures var creds := Promoted(d, key, cred, makeCurrent).credentials;
            && DistinctAgents(creds)
            && (Has(creds, c.agentId, c.messagingSeed) <==> c.agentId != cred.agentId || c.messagingSeed == cred.messagingSeed)
  {
    var creds := Promoted(d, key, cred, makeCurrent).credentials;
    var i := FindCredential(d.credentials, cred.agentId);
    assert creds[i] == cred;
    var j :| 0 <= j < |d.credentials| && d.credentials[j] == c;
    assert if j == i then creds[j] == cred else creds[j] == c;
  }

  lemma RemovedHas(creds: seq<Credential>, i: nat, c: Credential)
    requires i < |creds| && c in creds && DistinctAgents(creds)
    ensures var left := creds[..i] + creds[i + 1..];
            DistinctAgents(left) && (Has(left, c.agentId, c.messagingSeed) <==> creds[i].agentId != c.agentId)
  {
    var left := creds[..i] + creds[i + 1..];
    var j :| 0 <= j < |creds| && creds[j] == c;
    if j != i { assert left[if j < i then j else j - 1] == c; }
    forall k | 0 <= k < |left| ensures left[k] == creds[if k < i then k else k + 1] {}
  }

  lemma LoggedOutHas(d: Document, x: Credential, c: Credential)
    requires x in d.credentials && c in d.credentials && DistinctAgents(d.credentials)
    ensures var creds := LoggedOut(d, x).credentials;
            DistinctAgents(creds) && (Has(creds, c.agentId, c.messagingSeed) <==> x.agentId != c.agentId)
  {
    RemovedHas(d.credentials, FindCredential(d.credentials, x.agentId), c);
  }

  lemma EditedHas(creds: seq<Credential>, i: nat, edited: Credential, c: Credential)
    requires i < |creds| && c in creds && DistinctAgents(creds) && edited.agentId == creds[i].agentId
    requires edited.messagingSeed == creds[i].messagingSeed || (creds[i].messagingSeed == "" && c.messagingSeed != "")
    ensures DistinctAgents(creds[i := edited]) && Has(creds[i := edited], c.agentId, c.messagingSeed)
  {
    var j :| 0 <= j < |creds| && creds[j] == c;
    assert creds[i := edited][j].messagingSeed == c.messagingSeed;
  }

  lemma ActedHas(s: State, p: ProcessEvent, c: Credential)
    requires CanAct(s, p) && c in s.doc.credentials && DistinctAgents(s.doc.credentials)
    ensures DistinctAgents(Acted(s, p).doc.credentials)
    ensures Has(Acted(s, p).doc.credentials, c.agentId, c.messagingSeed) <==> !PromotesOver(s, p, c)
  {
    if p.Settle? && s.attempts[p.pid].phase.outcome.Enrolled? {
      var a := s.attempts[p.pid];
      PromotedHas(s.doc, a.record.key, CredentialFor(a.record, a.phase.outcome, p.fingerprints), p.makeCurrent, c);
    } else {
      MemberHas(s.doc.credentials, c);
    }
  }

  lemma MemberHas(creds: seq<Credential>, c: Credential)
    requires c in creds
    ensures Has(creds, c.agentId, c.messagingSeed)
  {
    var j :| 0 <= j < |creds| && creds[j] == c;
  }

  lemma RedoneHas(d: Document, e: DocumentEvent, c: Credential)
    requires CanRewrite(d, e) && c in d.credentials && c.messagingSeed != "" && DistinctAgents(d.credentials)
    ensures DistinctAgents(Redone(d, e).credentials)
    ensures Has(Redone(d, e).credentials, c.agentId, c.messagingSeed) <==> !LogsOut(e, c)
  {
    var creds := d.credentials;
    match e
    case Logout(x) => LoggedOutHas(d, x, c);
    case LogoutAll =>
    case Rebind(i, busUrl) => EditedHas(creds, i, creds[i].(busUrl := busUrl), c);
    case Mint(i, seed) => EditedHas(creds, i, creds[i].(messagingSeed := seed), c);
    case Repin(i, fingerprints) => EditedHas(creds, i, creds[i].(fingerprints := fingerprints), c);
    case _ => MemberHas(creds, c);
  }

  /** A stored messaging seed is still there after a step if and only if the step is none of those. */
  lemma SeedLostExactly(s: State, e: Event, c: Credential)
    requires Enabled(s, e) && c in s.doc.credentials && c.messagingSeed != "" && DistinctAgents(s.doc.credentials)
    ensures DistinctAgents(Step(s, e).doc.credentials)
    ensures Has(Step(s, e).doc.credentials, c.agentId, c.messagingSeed) <==> !Loses(s, e, c)
  {
    match e
    case Acts(p) => ActedHas(s, p, c);
    case Answers(_) => MemberHas(s.doc.credentials, c);
    case Rewrites(d) => RedoneHas(s.doc, d, c);
  }

  /** Agent ids are never stored twice, so the condition applies in every reachable state. */
  lemma {:induction false} AgentsStayDistinct(s: State, run: seq<Event>)
    requires Possible(s, run) && DistinctAgents(s.doc.credentials)
    ensures DistinctAgents(After(s, run).doc.credentials)
    decreases |run|
  {
    if run != [] {
      StepDistinct(s, run[0]);
      AgentsStayDistinct(Step(s, run[0]), run[1..]);
    }
  }

  lemma StepDistinct(s: State, e: Event)
    requires Enabled(s, e) && DistinctAgents(s.doc.credentials)
    ensures DistinctAgents(Step(s, e).doc.credentials)
  {
    match e
    case Acts(p) => ActedDistinct(s, p);
    case Answers(_) =>
    case Rewrites(d) => RedoneDistinct(s.doc, d);
  }

  lemma RedoneDistinct(d: Document, e: DocumentEvent)
    requires CanRewrite(d, e) && DistinctAgents(d.credentials)
    ensures DistinctAgents(Redone(d, e).credentials)
  {
    if e.Logout? { LoggedOutHas(d, e.credential, e.credential); }
  }

  lemma ActedDistinct(s: State, p: ProcessEvent)
    requires CanAct(s, p) && DistinctAgents(s.doc.credentials)
    ensures DistinctAgents(Acted(s, p).doc.credentials)
  {
    if p.Settle? && s.attempts[p.pid].phase.outcome.Enrolled? {
      var a := s.attempts[p.pid];
      PromotedDistinct(s.doc, a.record.key, CredentialFor(a.record, a.phase.outcome, p.fingerprints), p.makeCurrent);
    }
  }

  lemma PromotedDistinct(d: Document, key: string, cred: Credential, makeCurrent: bool)
    requires DistinctAgents(d.credentials)
    ensures DistinctAgents(Promoted(d, key, cred, makeCurrent).credentials)
  {
  }

  /** Every attempt of `s` is on `want` under `invite`, and stands at `phase`. */
  ghost predicate AllAt(s: State, want: Pending, invite: Invite, phase: Phase) {
    forall q :: q in s.attempts ==>
                  s.attempts[q].record == want && s.attempts[q].invite == invite && s.attempts[q].phase == phase
  }

  /** Two attempts on one record, both sent. */
  lemma TwoSent(want: Pending, invite: Invite, seed: string) returns (run: seq<Event>, s: State)
    requires Wanted(want, invite) && seed != "" && seed != want.authSeed
    ensures Leads(run, s, {}) && s.doc == Document("", [], [want]) && s.attempts.Keys == {0, 1}
    ensures AllAt(s, want, invite, Sending(true)) && s.applied == map[] && s.refused == {} && RequestFor(want, invite) in s.sent
  {
    run, s := OwnerStarts(want, invite);
    run, s := Resumes(run, s, Attempt(want, false, invite, Sending(false), 0), invite, seed);
    run, s := Transmits(run, s, {}, 0);
    run, s := Transmits(run, s, {}, 1);
  }

  /** Both told of the grant; neither has stored it yet. */
  lemma TwoToldOfOneGrant(want: Pending, invite: Invite, seed: string, busId: string)
    returns (run: seq<Event>, s: State)
    requires Wanted(want, invite) && seed != "" && seed != want.authSeed
    ensures Leads(run, s, {}) && s.doc == Document("", [], [want]) && s.attempts.Keys == {0, 1}
    ensures AllAt(s, want, invite, Returned(Enrolled(AGENT, busId, want.name)))
  {
    var o := Enrolled(AGENT, busId, want.name);
    run, s := TwoSent(want, invite, seed);
    run, s := Applies(run, s, {}, RequestFor(want, invite));
    run, s := Returns(run, s, {}, 0, o);
    run, s := Returns(run, s, {}, 1, o);
  }

  /**
   For every record without a messaging seed: a disciplined run after which the
   identity is stored with a minted seed, and one more disciplined step, a promotion,
   that writes "" over it. No record or credential holds the seed any more.
   */
  lemma MintedSeedOverwritten(want: Pending, invite: Invite, seed: string, busId: string, minted: string)
    returns (run: seq<Event>, s: State, run': seq<Event>, s': State)
    requires Wanted(want, invite) && seed != "" && seed != want.authSeed && want.messagingSeed == "" && minted != ""
    ensures Leads(run, s, {}) && Has(s.doc.credentials, AGENT, minted)
    ensures Leads(run', s', {}) && s'.doc.pending == []
    ensures |s'.doc.credentials| == 1 && s'.doc.credentials[0].agentId == AGENT && s'.doc.credentials[0].messagingSeed == ""
  {
    run, s := TwoToldOfOneGrant(want, invite, seed, busId);
    run, s := Promotes(run, s, 0);
    assert |s.doc.credentials| == 1 && s.doc.credentials[0].messagingSeed == "" && s.doc.credentials[0].agentId == AGENT;
    EmptyDocument(s.doc.pending);
    run, s := Mints(run, s, minted);
    assert s.doc.credentials[0].messagingSeed == minted;
    run', s' := Promotes(run, s, 1);
    EmptyDocument(s'.doc.pending);
  }
}
