/**
 Enrolment as a protocol between any number of client processes, the shared
 credential document and the buses.

 Each locked update of the document is one step. A request may be lost, its
 answer may be lost, and a bus may act on it late. The bus contract is stated in
 `Enabled`: one application per (bus, key), a success is only ever answered for
 the content that was applied, and a request once refused is never applied.
 Agent ids are minted once. Ed25519 derivation is abstract: `PublicOf` is
 injective.
 */
module Enrolment {
  import opened Common
  import opened CredentialStore
  import opened Transport

  type Pid = nat

  datatype PublicKey = PublicOf(seed: string)

  datatype Slot = Slot(busUrl: string, key: string)

  datatype Invite = Invite(id: string, secret: string)

  datatype Payload = Payload(
    name: string,
    authKey: PublicKey,
    messagingKey: Option<PublicKey>,
    inviteId: string,
    inviteSecret: string)

  datatype Request = Request(slot: Slot, payload: Payload)

  /** What the bus compares when a key comes back: the invite secret is not part of it. */
  function Fingerprint(p: Payload): Payload { p.(inviteSecret := "") }

  datatype Outcome = Enrolled(agentId: string, busId: string, name: string) | Failed(failure: Failure)

  datatype Phase = Sending(sent: bool) | Returned(outcome: Outcome)

  /** `period` is the period of its slot in which the attempt was claimed. */
  datatype Attempt = Attempt(record: Pending, resumed: bool, invite: Invite, phase: Phase, period: nat)

  /** Where key material that is sent comes from: a claim on the document, or a call that saves nothing. */
  datatype Origin = Saved(period: nat) | Unsaved(call: nat)

  datatype Claimant = Claimant(record: Pending, invite: Invite, origin: Origin)

  /**
   What the theorems speak about and no step consults. A period of a slot ends when
   the document no longer holds any record or credential at the slot.
   */
  datatype History = History(periods: map<Slot, nat>, claims: set<Claimant>, transmitted: set<Claimant>)

  datatype Grant = Grant(payload: Payload, agentId: string)

  datatype State = State(
    doc: Document,
    attempts: map<Pid, Attempt>,
    sent: set<Request>,
    applied: map<Slot, Grant>,
    refused: set<Request>,
    drawn: map<string, Pending>,             // history: every seed drawn, with the record it was drawn for
    erased: set<string>,                     // history: seeds destroyed by logout or by the 24-hour rule
    history: History)

  const INITIAL := State(Document("", [], []), map[], {}, map[], {}, map[], {}, History(map[], {}, {}))

  function SlotOf(p: Pending): Slot { Slot(p.busUrl, p.key) }

  /** The slots at which the document holds key material. */
  function Held(d: Document): set<Slot> {
    (set p | p in d.pending :: SlotOf(p)) + (set c | c in d.credentials :: Slot(c.busUrl, c.key))
  }

  function Period(h: History, k: Slot): nat { if k in h.periods then h.periods[k] else 0 }

  function Ended(h: History, gone: set<Slot>): History {
    h.(periods := map k | k in h.periods.Keys + gone :: Period(h, k) + (if k in gone then 1 else 0))
  }

  function MessagingKey(p: Pending): Option<PublicKey> {
    if p.messagingSeed == "" then None else Some(PublicOf(p.messagingSeed))
  }

  /** The request every transmission of an attempt carries: record and invite, nothing drawn anew. */
  function RequestFor(record: Pending, invite: Invite): Request {
    Request(SlotOf(record),
            Payload(record.name, PublicOf(record.authSeed), MessagingKey(record), invite.id, invite.secret))
  }

  function RequestOf(a: Attempt): Request { RequestFor(a.record, a.invite) }

  function ClaimantOf(a: Attempt): Claimant { Claimant(a.record, a.invite, Saved(a.period)) }

  function CredentialFor(record: Pending, o: Outcome, fingerprints: seq<string>): Credential
    requires o.Enrolled?
  {
    Credential(o.agentId, o.busId, o.name, record.busUrl, fingerprints, record.authSeed, record.messagingSeed, record.key)
  }

  /** The keep-or-drop rule for the key material of a failed attempt. */
  predicate Drops(resumed: bool, f: Failure) {
    !Ambiguous(f) && !resumed && f.status != CONFLICT
  }

  // ----- Steps --------------------------------------------------------------

  /** A process starts, sends, learns, settles or dies; or sends without saving. */
  datatype ProcessEvent =
    | Start(pid: Pid, want: Pending, invite: Invite)
    | Transmit(pid: Pid)
    | Return(pid: Pid, outcome: Outcome)
    | Settle(pid: Pid, makeCurrent: bool, fingerprints: seq<string>)
    | Crash(pid: Pid)
    | SendUnsaved(want: Pending, invite: Invite)

  datatype BusEvent = Apply(request: Request, agentId: string) | Refuse(request: Request)

  /** The operator's updates of the document, and the 24-hour rule. */
  datatype DocumentEvent =
    | Prune(now: int)
    | Logout(credential: Credential)
    | LogoutAll
    | Rebind(index: nat, busUrl: string)
    | Mint(index: nat, seed: string)
    | Select(agentId: string)
    | Repin(index: nat, fingerprints: seq<string>)

  datatype Event = Acts(process: ProcessEvent) | Answers(bus: BusEvent) | Rewrites(document: DocumentEvent)

  predicate AppliedAs(s: State, r: Request) {
    r.slot in s.applied && Fingerprint(s.applied[r.slot].payload) == Fingerprint(r.payload)
  }

  /** Which results of the request a process can see. */
  predicate CanReturn(s: State, a: Attempt, o: Outcome) {
    && a.phase.Sending?
    && match o
       case Enrolled(agentId, _, _) =>
         a.phase.sent && AppliedAs(s, RequestOf(a)) && agentId == s.applied[SlotOf(a.record)].agentId
       case Failed(f) =>
         // No answer, or a fault of the bus, leaves open whether it applied the request.
         if f.kind in {Network, Server} || f.status == CONFLICT then a.phase.sent
         else if f.status == 0 then !a.phase.sent
         else RequestOf(a) in s.refused
  }

  predicate CanAct(s: State, p: ProcessEvent) {
    match p
    case Start(pid, want, invite) =>
      pid !in s.attempts && want.authSeed !in s.drawn && want.authSeed != "" && want.inviteId == invite.id
    case Transmit(pid) => pid in s.attempts && s.attempts[pid].phase.Sending?
    case Return(pid, o) => pid in s.attempts && CanReturn(s, s.attempts[pid], o)
    case Settle(pid, _, _) => pid in s.attempts && s.attempts[pid].phase.Returned?
    case Crash(pid) => pid in s.attempts
    case SendUnsaved(want, invite) => want.authSeed !in s.drawn && want.authSeed != "" && want.inviteId == invite.id
  }

  predicate CanAnswer(s: State, b: BusEvent) {
    match b
    case Apply(r, agentId) =>
      && r in s.sent && r !in s.refused && r.slot !in s.applied
      && agentId != "" && forall k :: k in s.applied ==> s.applied[k].agentId != agentId
    case Refuse(r) => r in s.sent && !AppliedAs(s, r)
  }

  predicate CanRewrite(d: Document, e: DocumentEvent) {
    match e
    case Logout(c) => c in d.credentials
    case Rebind(i, _) => i < |d.credentials|
    case Mint(i, seed) => i < |d.credentials| && d.credentials[i].messagingSeed == "" && seed != ""
    case Repin(i, _) => i < |d.credentials|
    case _ => true
  }

  predicate Enabled(s: State, e: Event) {
    match e
    case Acts(p) => CanAct(s, p)
    case Answers(b) => CanAnswer(s, b)
    case Rewrites(d) => CanRewrite(s.doc, d)
  }

  function PendingSeeds(d: Document): set<string> { set p | p in d.pending :: p.authSeed }

  function CredentialSeeds(d: Document): set<string> { set c | c in d.credentials :: c.authSeed }

  function HeldSeeds(d: Document): set<string> { PendingSeeds(d) + CredentialSeeds(d) }

  /** The document is rewritten; the period ends wherever nothing is held any more. */
  function Rewritten(s: State, d: Document): State {
    s.(doc := d, history := Ended(s.history, Held(s.doc) - Held(d)))
  }

  /** A step that destroys key material: what was held and no longer is counts as erased. */
  function Erasing(s: State, d: Document): State {
    Rewritten(s, d).(erased := s.erased + (PendingSeeds(s.doc) - PendingSeeds(d)) + (CredentialSeeds(s.doc) - CredentialSeeds(d)))
  }

  function Join(s: State, pid: Pid, record: Pending, resumed: bool, invite: Invite): State {
    var a := Attempt(record, resumed, invite, Sending(false), Period(s.history, SlotOf(record)));
    s.(attempts := s.attempts[pid := a], history := s.history.(claims := s.history.claims + {ClaimantOf(a)}))
  }

  function Settled(s: State, pid: Pid, makeCurrent: bool, fingerprints: seq<string>): State
    requires pid in s.attempts && s.attempts[pid].phase.Returned?
  {
    var a := s.attempts[pid];
    var done := s.(attempts := s.attempts - {pid});
    match a.phase.outcome
    case Enrolled(_, _, _) =>
      Rewritten(done, Promoted(s.doc, a.record.key, CredentialFor(a.record, a.phase.outcome, fingerprints), makeCurrent))
    case Failed(f) =>
      if Drops(a.resumed, f) then Rewritten(done, Dropped(s.doc, a.record.key, a.record.busUrl)) else done
  }

  function Acted(s: State, p: ProcessEvent): State
    requires CanAct(s, p)
  {
    match p
    case Start(pid, want, invite) =>
      var claimed := s.(doc := Claimed(s.doc, want), drawn := s.drawn[want.authSeed := want]);
      (match Decide(s.doc, want)
       case Fresh(record) => Join(claimed, pid, record, false, invite)
       case Resumed(record) => Join(claimed, pid, record, true, invite)
       case _ => claimed)
    case Transmit(pid) =>
      s.(sent := s.sent + {RequestOf(s.attempts[pid])},
         attempts := s.attempts[pid := s.attempts[pid].(phase := Sending(true))],
         history := s.history.(transmitted := s.history.transmitted + {ClaimantOf(s.attempts[pid])}))
    case Return(pid, o) => s.(attempts := s.attempts[pid := s.attempts[pid].(phase := Returned(o))])
    case Settle(pid, makeCurrent, fingerprints) => Settled(s, pid, makeCurrent, fingerprints)
    case Crash(pid) => s.(attempts := s.attempts - {pid})
    case SendUnsaved(want, invite) =>
      // A call that does not save draws its keys, sends them and keeps them to itself.
      var c := Claimant(want, invite, Unsaved(|s.drawn|));
      s.(sent := s.sent + {RequestFor(want, invite)},
         drawn := s.drawn[want.authSeed := want],
         history := s.history.(claims := s.history.claims + {c}, transmitted := s.history.transmitted + {c}))
  }

  function Answered(s: State, b: BusEvent): State {
    match b
    case Apply(r, agentId) => s.(applied := s.applied[r.slot := Grant(r.payload, agentId)])
    case Refuse(r) => s.(refused := s.refused + {r})
  }

  function Redone(d: Document, e: DocumentEvent): Document
    requires CanRewrite(d, e)
  {
    match e
    case Prune(now) => Pruned(d, now)
    case Logout(c) => LoggedOut(d, c)
    case LogoutAll => Document("", [], [])
    case Rebind(i, busUrl) =>
      // Moving an identity to its TLS address keeps its keys and leaves its old slot.
      d.(credentials := d.credentials[i := d.credentials[i].(busUrl := busUrl)])
    case Mint(i, seed) =>
      // The first send of an identity granted without a messaging key draws one.
      d.(credentials := d.credentials[i := d.credentials[i].(messagingSeed := seed)])
    case Select(agentId) => d.(current := agentId)
    case Repin(i, fingerprints) => d.(credentials := d.credentials[i := d.credentials[i].(fingerprints := fingerprints)])
  }

  function Step(s: State, e: Event): State
    requires Enabled(s, e)
  {
    match e
    case Acts(p) => Acted(s, p)
    case Answers(b) => Answered(s, b)
    case Rewrites(d) => Erasing(s, Redone(s.doc, d))
  }

  // ----- Runs ---------------------------------------------------------------

  ghost predicate Possible(s: State, run: seq<Event>)
    decreases |run|
  {
    run == [] || (Enabled(s, run[0]) && Possible(Step(s, run[0]), run[1..]))
  }

  ghost function After(s: State, run: seq<Event>): State
    requires Possible(s, run)
    decreases |run|
  {
    if run == [] then s else After(Step(s, run[0]), run[1..])
  }

  /** The seeds of `record` were drawn for it. */
  predicate Drawn(s: State, record: Pending) {
    record.authSeed in s.drawn && s.drawn[record.authSeed] == record
  }

  ghost predicate OnePerSlot(pending: seq<Pending>) {
    forall p, q :: p in pending && q in pending && SlotOf(p) == SlotOf(q) ==> p == q
  }

  ghost predicate DistinctIds(s: State) {
    forall k, k' :: k in s.applied && k' in s.applied && s.applied[k].agentId == s.applied[k'].agentId ==> k == k'
  }

  /** Everything the bus granted is still recoverable here, unless the operator or the 24-hour rule destroyed it. */
  ghost predicate NoOrphans(s: State) {
    forall k :: k in s.applied ==> Recoverable(s, s.applied[k].payload)
  }

  /** Seeds from which every key of `p` derives. */
  predicate Seeds(authSeed: string, messagingSeed: string, p: Payload) {
    && PublicOf(authSeed) == p.authKey
    && (p.messagingKey.Some? ==> messagingSeed != "" && PublicOf(messagingSeed) == p.messagingKey.value)
  }

  /** The private halves of everything `p` carries are in one stored record. */
  ghost predicate Holds(d: Document, p: Payload) {
    || (exists r :: r in d.pending && Seeds(r.authSeed, r.messagingSeed, p))
    || (exists c :: c in d.credentials && Seeds(c.authSeed, c.messagingSeed, p))
  }

  ghost predicate Recoverable(s: State, p: Payload) { p.authKey.seed in s.erased || Holds(s.doc, p) }
}
