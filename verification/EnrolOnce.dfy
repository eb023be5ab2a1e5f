/**
 One call of `Enrol` by one process, over the shared store: claim, send, settle.
 The clock and the network are parameters; each update of the document is the one
 the protocol machine takes as a step.
 */
module EnrolOnce {
  import opened Common
  import opened CredentialStore
  import opened Transport
  import opened Enrolment

  datatype Options = Options(save: bool, makeCurrent: bool, fingerprints: seq<string>)

  /** What the transport brought back; `legible`: its fields have the shape the client insists on. */
  datatype Answer = Answer(outcome: Outcome, legible: bool)

  datatype Ending = Done(agentId: string, replayed: bool) | Conflict | Damaged | Unusable | NotStored | Refused(failure: Failure)

  /** The document after an attempt under `record` ended in `a`, `later` being the clock then. */
  function Concluded(d: Document, record: Pending, resumed: bool, a: Answer, opts: Options, later: int): Document {
    match a.outcome
    case Enrolled(agentId, _, _) =>
      if !a.legible || agentId == "" || record.authSeed == "" then d
      else Promoted(Pruned(d, later), record.key, CredentialFor(record, a.outcome, opts.fingerprints), opts.makeCurrent)
    case Failed(f) => if Drops(resumed, f) then Dropped(Pruned(d, later), record.key, record.busUrl) else d
  }

  /** The document holds what was granted: ids and name as the bus sent them, under the key and bus of the attempt. */
  ghost predicate Recorded(d: Document, record: Pending, o: Outcome, fingerprints: seq<string>)
    requires o.Enrolled?
  {
    exists c :: c in d.credentials
                && c.agentId == o.agentId && c.busId == o.busId && c.name == o.name
                && c.key == record.key && c.busUrl == record.busUrl && c.fingerprints == fingerprints
                && c.authSeed == record.authSeed && c.messagingSeed == record.messagingSeed
  }

  /** A grant at a slot that held no credential is filed there, under the name the bus sent. */
  lemma PromotedIsFiled(d: Document, record: Pending, o: Outcome, fingerprints: seq<string>, makeCurrent: bool)
    requires o.Enrolled?
    ensures var d' := Promoted(d, record.key, CredentialFor(record, o, fingerprints), makeCurrent);
            && Recorded(d', record, o, fingerprints)
            && ((forall c :: c in d.credentials ==> !CredentialAt(c, record.key, record.busUrl)) ==>
                  Filed(d', record.key, record.busUrl, o.name, o.agentId))
            && (makeCurrent ==> d'.current == o.agentId)
  {
    var cred := CredentialFor(record, o, fingerprints);
    var d' := Promoted(d, record.key, cred, makeCurrent);
    var i := FindCredential(d.credentials, cred.agentId);
    assert d'.credentials[i] == cred;
    forall c | c in d'.credentials ensures c == cred || c in d.credentials {
      var j :| 0 <= j < |d'.credentials| && d'.credentials[j] == c;
    }
  }

  lemma PromotedHolds(d: Document, record: Pending, o: Outcome, fingerprints: seq<string>, makeCurrent: bool, invite: Invite)
    requires o.Enrolled?
    ensures Holds(Promoted(d, record.key, CredentialFor(record, o, fingerprints), makeCurrent), RequestFor(record, invite).payload)
  {
    var cred := CredentialFor(record, o, fingerprints);
    var d' := Promoted(d, record.key, cred, makeCurrent);
    var i := FindCredential(d.credentials, cred.agentId);
    assert d'.credentials[i] == cred;
    assert cred in d'.credentials;
  }

  /** Key material that was sent is dropped only when this attempt drew it and the bus refused it on its merits. */
  lemma ConcludedHolds(d: Document, record: Pending, resumed: bool, a: Answer, opts: Options, later: int, invite: Invite)
    requires record in d.pending
    ensures Holds(Concluded(d, record, resumed, a, opts, later), RequestFor(record, invite).payload)
            || (a.outcome.Failed? && Drops(resumed, a.outcome.failure))
  {
    if a.outcome.Enrolled? && a.legible && a.outcome.agentId != "" && record.authSeed != "" {
      PromotedHolds(Pruned(d, later), record, a.outcome, opts.fingerprints, opts.makeCurrent, invite);
    }
  }

  lemma ClaimedRecord(d: Document, want: Pending)
    requires var claim := Decide(d, want); claim.Fresh? || claim.Resumed?
    ensures Decide(d, want).record in Claimed(d, want).pending
    ensures PendingAt(Decide(d, want).record, want.key, want.busUrl) && Decide(d, want).record.name == want.name
  {
    if Decide(d, want).Fresh? { assert Claimed(d, want).pending[|d.pending|] == want; }
  }

  /**
   `answer` is the network's reaction to whatever is sent, `intact` whether the key
   material of a record decodes and matches its public half, `now` and `later` the
   clock at the claim and at the end. What is sent is made of the record found or
   written by the claim, never of key material drawn for nothing.
   */
  method Enrol(store: Store, want: Pending, invite: Invite, opts: Options, answer: Request -> Answer,
               intact: Pending -> bool, now: int, later: int)
    returns (ending: Ending, sent: Option<Request>)
    modifies store
    ensures var d, claim := Pruned(old(store.Doc()), now), Decide(Pruned(old(store.Doc()), now), want);
            if !opts.save then
              sent == (if intact(want) then Some(RequestFor(want, invite)) else None) && store.Doc() == old(store.Doc())
            else if claim.AlreadyApplied? then
              sent.None? && store.Doc() == d && ending == Done(claim.credential.agentId, true)
            else if claim.NameConflict? || claim.InviteConflict? then
              sent.None? && store.Doc() == old(store.Doc()) && ending == Conflict
            else if !intact(claim.record) then
              sent.None? && store.Doc() == Claimed(d, want) && ending == Damaged
            else
              && sent == Some(RequestFor(claim.record, invite))
              && store.Doc() == Concluded(Claimed(d, want), claim.record, claim.Resumed?, answer(sent.value), opts, later)
    ensures sent.Some? ==>
              match answer(sent.value).outcome
              case Failed(f) => ending == Refused(f)
              case Enrolled(id, _, name) =>
                if !answer(sent.value).legible then ending == Unusable
                else if opts.save && (id == "" || sent.value.payload.authKey.seed == "") then ending == NotStored
                else ending == Done(id, false) && (opts.save ==> Filed(store.Doc(), want.key, want.busUrl, name, id))
    ensures opts.save ==> forall id :: Filed(old(store.Doc()), want.key, want.busUrl, want.name, id) ==>
              sent.None? && ending == Done(id, true) && store.Doc() == Pruned(old(store.Doc()), now)
    ensures opts.save && sent.Some? ==>
              sent.value.slot == Slot(want.busUrl, want.key) && sent.value.payload.name == want.name
    ensures opts.save && sent.Some? && !Holds(store.Doc(), sent.value.payload) ==>
              ending.Refused? && Drops(false, ending.failure)
  {
    sent := None;
    var record, resumed := want, false;
    if opts.save {
      ghost var d := Pruned(store.Doc(), now);
      DecideMeaning(d, want);
      forall id | Filed(d, want.key, want.busUrl, want.name, id) { FiledIsApplied(d, want, want.name, id); }
      var claim := store.ClaimEnrolment(want, now);
      if claim.NameConflict? || claim.InviteConflict? { return Conflict, sent; }
      if claim.AlreadyApplied? { return Done(claim.credential.agentId, true), sent; }
      ClaimedRecord(Pruned(old(store.Doc()), now), want);
      record, resumed := claim.record, claim.Resumed?;
    }
    if !intact(record) { return Damaged, sent; }
    ghost var d := store.Doc();
    var request := RequestFor(record, invite);
    sent := Some(request);
    var a := answer(request);
    if opts.save { ConcludedHolds(d, record, resumed, a, opts, later, invite); }
    ending := Settle(store, record, resumed, a, opts, later);
  }

  /** Promote on success, drop or keep on failure, and touch nothing when the answer cannot be read. */
  method Settle(store: Store, record: Pending, resumed: bool, a: Answer, opts: Options, later: int) returns (ending: Ending)
    modifies store
    ensures store.Doc() == if opts.save then Concluded(old(store.Doc()), record, resumed, a, opts, later) else old(store.Doc())
    ensures match a.outcome
            case Failed(f) => ending == Refused(f)
            case Enrolled(id, _, _) =>
              if !a.legible then ending == Unusable && store.Doc() == old(store.Doc())
              else if opts.save && (id == "" || record.authSeed == "") then ending == NotStored && store.Doc() == old(store.Doc())
              else ending == Done(id, false)
    ensures opts.save && ending.Done? ==>
              && Recorded(store.Doc(), record, a.outcome, opts.fingerprints)
              && (opts.makeCurrent ==> store.Doc().current == a.outcome.agentId)
              && ((forall c :: c in old(store.Doc()).credentials ==> !CredentialAt(c, record.key, record.busUrl)) ==>
                    Filed(store.Doc(), record.key, record.busUrl, a.outcome.name, a.outcome.agentId))
  {
    match a.outcome
    case Failed(f) =>
      if opts.save && Drops(resumed, f) { store.DropPending(record.key, record.busUrl, later); }
      ending := Refused(f);
    case Enrolled(agentId, busId, name) =>
      if !a.legible { return Unusable; }
      if !opts.save { return Done(agentId, false); }
      var cred := CredentialFor(record, a.outcome, opts.fingerprints);
      PromotedIsFiled(Pruned(store.Doc(), later), record, a.outcome, opts.fingerprints, opts.makeCurrent);
      var ok := store.PromotePending(record.key, cred, opts.makeCurrent, later);
      ending := if ok then Done(agentId, false) else NotStored;
  }
}
