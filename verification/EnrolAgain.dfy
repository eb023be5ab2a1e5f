/**
 Enrolment is idempotent per (key, bus, name): once granted it is answered from the
 store, until an update of the document disturbs it.
 */
module EnrolAgain {
  import opened Common
  import opened CredentialStore
  import opened Enrolment
  import opened EnrolOnce
  import opened MessagingKeys

  /** Any locked update of the document: the operator's, or a step of some enrolment. */
  datatype Update =
    | Operator(event: DocumentEvent)
    | Claims(want: Pending)
    | Promotes(key: string, credential: Credential, makeCurrent: bool)
    | Drops(key: string, busUrl: string)

  /** An update that cannot be made leaves the document as it is. */
  function Changed(d: Document, u: Update): Document {
    match u
    case Operator(e) => if CanRewrite(d, e) then Redone(d, e) else d
    case Claims(want) => Claimed(d, want)
    case Promotes(key, cred, makeCurrent) => Promoted(d, key, cred, makeCurrent)
    case Drops(key, busUrl) => Dropped(d, key, busUrl)
  }

  function AllChanged(d: Document, run: seq<Update>): Document
    decreases |run|
  {
    if run == [] then d else AllChanged(Changed(d, run[0]), run[1..])
  }

  /**
   The updates that end an enrolment of `id` at (key, bus): it is logged out or moved to
   another bus, granted anew elsewhere or under another name, or another identity is
   moved or granted into its place.
   */
  predicate Disturbs(d: Document, u: Update, key: string, busUrl: string, name: string, id: string) {
    match u
    case Operator(Logout(c)) => c in d.credentials && c.agentId == id
    case Operator(LogoutAll) => true
    case Operator(Rebind(i, to)) =>
      && i < |d.credentials|
      && if d.credentials[i].agentId == id then to != busUrl else d.credentials[i].key == key && to == busUrl
    case Promotes(_, cred, _) =>
      if cred.agentId == id then !CredentialAt(cred, key, busUrl) || cred.name != name else CredentialAt(cred, key, busUrl)
    case _ => false
  }

  ghost predicate Undisturbed(d: Document, run: seq<Update>, key: string, busUrl: string, name: string, id: string)
    decreases |run|
  {
    run == [] || (!Disturbs(d, run[0], key, busUrl, name, id) && Undisturbed(Changed(d, run[0]), run[1..], key, busUrl, name, id))
  }

  /** The list after one credential was replaced by another. */
  lemma FiledReplaced(d: Document, i: nat, c: Credential, key: string, busUrl: string, name: string, id: string)
    requires Filed(d, key, busUrl, name, id) && DistinctAgents(d.credentials)
    requires i < |d.credentials| && c.agentId == d.credentials[i].agentId
    ensures Filed(d.(credentials := d.credentials[i := c]), key, busUrl, name, id) <==>
            if c.agentId == id then CredentialAt(c, key, busUrl) && c.name == name else !CredentialAt(c, key, busUrl)
  {
    var creds := d.credentials[i := c];
    var mine :| mine in d.credentials && CredentialAt(mine, key, busUrl);
    var j :| 0 <= j < |d.credentials| && d.credentials[j] == mine;
    assert creds[i] == c && (j != i ==> creds[j] == mine);
    forall x ensures x in creds ==> x == c || (x in d.credentials && x.agentId != c.agentId) {
      if x in creds {
        var k :| 0 <= k < |creds| && creds[k] == x;
      }
    }
  }

  lemma FiledAdded(d: Document, c: Credential, key: string, busUrl: string, name: string, id: string)
    requires Filed(d, key, busUrl, name, id) && c.agentId != id
    ensures Filed(d.(credentials := d.credentials + [c]), key, busUrl, name, id) <==> !CredentialAt(c, key, busUrl)
  {
    var mine :| mine in d.credentials && CredentialAt(mine, key, busUrl);
    assert mine in d.credentials + [c] && c in d.credentials + [c];
  }

  lemma FiledRemoved(d: Document, c: Credential, key: string, busUrl: string, name: string, id: string)
    requires Filed(d, key, busUrl, name, id) && DistinctAgents(d.credentials) && c in d.credentials
    ensures Filed(LoggedOut(d, c), key, busUrl, name, id) <==> c.agentId != id
  {
    OthersLeft(d.credentials, FindCredential(d.credentials, c.agentId));
    var mine :| mine in d.credentials && CredentialAt(mine, key, busUrl);
    assert mine.agentId == id;
  }

  lemma OthersLeft(creds: seq<Credential>, i: nat)
    requires i < |creds| && DistinctAgents(creds)
    ensures forall x :: x in creds[..i] + creds[i + 1..] <==> x in creds && x.agentId != creds[i].agentId
  {
    OneRemoved(creds, i);
    forall x | x in creds && x.agentId == creds[i].agentId ensures x == creds[i] {
      var j :| 0 <= j < |creds| && creds[j] == x;
    }
  }

  /** One update keeps an enrolment filed exactly when it does not disturb it. */
  lemma FiledUnlessDisturbed(d: Document, u: Update, key: string, busUrl: string, name: string, id: string)
    requires Filed(d, key, busUrl, name, id) && DistinctAgents(d.credentials)
    ensures Filed(Changed(d, u), key, busUrl, name, id) <==> !Disturbs(d, u, key, busUrl, name, id)
  {
    match u
    case Operator(e) => if CanRewrite(d, e) { OperatorDisturbs(d, e, key, busUrl, name, id); }
    case Claims(_) =>
    case Promotes(_, cred, _) =>
      var i := FindCredential(d.credentials, cred.agentId);
      if i < |d.credentials| {
        FiledReplaced(d, i, cred, key, busUrl, name, id);
      } else {
        FiledAdded(d, cred, key, busUrl, name, id);
      }
    case Drops(_, _) =>
  }

  lemma OperatorDisturbs(d: Document, e: DocumentEvent, key: string, busUrl: string, name: string, id: string)
    requires Filed(d, key, busUrl, name, id) && DistinctAgents(d.credentials) && CanRewrite(d, e)
    ensures Filed(Redone(d, e), key, busUrl, name, id) <==> !Disturbs(d, Operator(e), key, busUrl, name, id)
  {
    match e
    case Prune(_) =>
    case Logout(c) => FiledRemoved(d, c, key, busUrl, name, id);
    case LogoutAll =>
    case Rebind(i, to) => FiledReplaced(d, i, d.credentials[i].(busUrl := to), key, busUrl, name, id);
    case Mint(i, seed) => FiledReplaced(d, i, d.credentials[i].(messagingSeed := seed), key, busUrl, name, id);
    case Select(_) =>
    case Repin(i, fingerprints) => FiledReplaced(d, i, d.credentials[i].(fingerprints := fingerprints), key, busUrl, name, id);
  }

  lemma DistinctStays(d: Document, u: Update)
    requires DistinctAgents(d.credentials)
    ensures DistinctAgents(Changed(d, u).credentials)
  {
    match u
    case Operator(Logout(c)) => if c in d.credentials { LoggedOutHas(d, c, c); }
    case Operator(_) =>
    case Claims(_) =>
    case Promotes(key, cred, makeCurrent) => if d.credentials != [] { PromotedHas(d, key, cred, makeCurrent, d.credentials[0]); }
    case Drops(_, _) =>
  }

  /** What was granted stays filed over any run of updates that does not disturb it. */
  lemma {:induction false} FiledStays(d: Document, run: seq<Update>, key: string, busUrl: string, name: string, id: string)
    requires Filed(d, key, busUrl, name, id) && DistinctAgents(d.credentials)
    requires Undisturbed(d, run, key, busUrl, name, id)
    ensures Filed(AllChanged(d, run), key, busUrl, name, id)
    decreases |run|
  {
    if run != [] {
      FiledUnlessDisturbed(d, run[0], key, busUrl, name, id);
      DistinctStays(d, run[0]);
      FiledStays(Changed(d, run[0]), run[1..], key, busUrl, name, id);
    }
  }

  /** The identity of a grant that was legible, complete, and echoed the name it was asked for. */
  function Granted(sent: Option<Request>, a: Answer): Option<string> {
    if sent.Some? && a.legible && a.outcome.Enrolled? && a.outcome.name == sent.value.payload.name
       && a.outcome.agentId != "" && sent.value.payload.authKey.seed != ""
    then Some(a.outcome.agentId) else None
  }

  /** A call after any updates of the document: what is filed by then is answered from the store. */
  method EnrolLater(store: Store, between: seq<Update>, again: Pending, invite: Invite, opts: Options,
                    answer: Request -> Answer, intact: Pending -> bool, now: int, later: int)
    returns (ending: Ending, sent: Option<Request>)
    requires opts.save
    modifies store
    ensures forall id :: Filed(AllChanged(old(store.Doc()), between), again.key, again.busUrl, again.name, id) ==>
              sent.None? && ending == Done(id, true)
  {
    store.Save(AllChanged(store.Doc(), between));
    ending, sent := Enrol(store, again, invite, opts, answer, intact, now, later);
  }

  lemma PromotedDistinct(d: Document, record: Pending, resumed: bool, a: Answer, opts: Options, later: int)
    requires DistinctAgents(d.credentials)
    ensures DistinctAgents(Concluded(d, record, resumed, a, opts, later).credentials)
  {
    if a.outcome.Enrolled? {
      DistinctStays(Pruned(d, later), Promotes(record.key, CredentialFor(record, a.outcome, opts.fingerprints), opts.makeCurrent));
    }
  }

  /**
   Two calls under one key, bus and name, and any updates in between that do not disturb
   the first one's grant: the second call answers from the store and sends nothing,
   whatever seeds, invite, clock and network it comes with.
   */
  method EnrolTwice(store: Store, want: Pending, invite: Invite, opts: Options, answer: Request -> Answer,
                    intact: Pending -> bool, now: int, later: int, between: seq<Update>,
                    again: Pending, invite': Invite, opts': Options, answer': Request -> Answer,
                    intact': Pending -> bool, now': int, later': int)
    returns (first: Ending, sent: Option<Request>, second: Ending, sent': Option<Request>, ghost mid: Document)
    requires opts.save && opts'.save && DistinctAgents(store.credentials)
    requires again.key == want.key && again.busUrl == want.busUrl && again.name == want.name
    modifies store
    ensures sent.Some? && Granted(sent, answer(sent.value)).Some? ==>
              var id := Granted(sent, answer(sent.value)).value;
              && first == Done(id, false) && Filed(mid, want.key, want.busUrl, want.name, id)
              && (Undisturbed(mid, between, want.key, want.busUrl, want.name, id) ==> sent'.None? && second == Done(id, true))
  {
    ghost var d := Pruned(store.Doc(), now);
    first, sent := Enrol(store, want, invite, opts, answer, intact, now, later);
    mid := store.Doc();
    if sent.Some? && Granted(sent, answer(sent.value)).Some? {
      ghost var id := Granted(sent, answer(sent.value)).value;
      PromotedDistinct(Claimed(d, want), Decide(d, want).record, Decide(d, want).Resumed?, answer(sent.value), opts, later);
      if Undisturbed(mid, between, want.key, want.busUrl, want.name, id) {
        FiledStays(mid, between, want.key, want.busUrl, want.name, id);
      }
    }
    second, sent' := EnrolLater(store, between, again, invite', opts', answer', intact', now', later');
  }
}
