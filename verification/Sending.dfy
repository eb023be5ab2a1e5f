/**
 Reserve, sign, send: one `Send` call over a network that loses requests, loses
 answers, delivers late and repeatedly, and over a bus that may restart.

 The network decides every outcome from an arbitrary script. The retry loop, the
 single re-handshake and the two legs are the client's.
 */
module Sending {
  import opened Common
  import opened MessageIds
  import opened Canonical
  import opened BusLog
  import opened Transport

  const MAX_BODY_BYTES := 65536

  datatype Reply = Reserved(reservation: Reservation) | Receipt(envelope: Envelope)

  /** What becomes of one transmission; `Garbled` is a success the client cannot read. */
  datatype Fate = Lost | AnswerLost | Garbled | Answered

  /** One happening on the network: what arrives late, then the fate of the request at hand. */
  datatype Happening = Happening(
    late: seq<Delivery>,
    minted: Reservation,
    fate: Fate,
    failure: Failure,
    contextDone: bool)

  /** `n` repetitions of one request, byte for byte. */
  function Copies(t: Transmission, n: nat): (s: seq<Transmission>)
    ensures |s| == n && forall i :: 0 <= i < n ==> s[i] == t
  {
    seq(n, i => t)
  }

  lemma CopiesAppend(t: Transmission, m: nat, n: nat)
    ensures Copies(t, m) + Copies(t, n) == Copies(t, m + n)
  {
  }

  /** A success the bus stands by. */
  ghost predicate Confirms(b: Bus, t: Transmission, r: Reply) {
    match t
    case Mint(key) => r.Reserved?
    case Submit(e) => e.key in b.applied && b.applied[e.key] == e && r == Receipt(e)
  }

  /** What the canonical form makes of an envelope. */
  function Content(e: Envelope): SignedMessage {
    SignedMessage(e.messageId, e.sequence, e.sender, [e.to], e.timestamp, e.body)
  }

  /** An envelope this agent stands behind: its own id, acceptable content, a signature over exactly that. */
  ghost predicate Authentic(e: Envelope, self: string) {
    e.sender == self && Accepted(Content(e)) && e.signature == Over(CanonicalBytes(Content(e)))
  }

  predicate Sendable(to: string, body: string, key: string) {
    LegalServerId(to) && SplitQualifiedId(to).Some? && 1 <= |body| <= MAX_BODY_BYTES && LegalIdempotencyKey(key)
  }

  /** `e` is the authentic envelope of this very request. */
  ghost predicate Ready(e: Envelope, self: string, to: string, body: string, key: string, now: Int64) {
    && Sendable(to, body, key)
    && Authentic(e, self)
    && e.key == key && e.to == to && e.body == body && e.timestamp == now
  }

  function UsageError(): (f: Failure)
    ensures !IsRetryable(f) && !Ambiguous(f) && f.kind != Auth
  {
    Failure(Usage, 0, false, Plain)
  }

  /** An answer that cannot be read is retried like no answer, and leaves open whether the request was applied. */
  function BadAnswer(): (f: Failure)
    ensures IsRetryable(f) && Ambiguous(f)
  {
    Failure(Server, 0, false, Plain)
  }

  // ----- What a call saw of the network ----------------------------------------

  type Outcome = Result<Reply, Failure>

  /** One transmission, as its sender saw it: the outcome, and whether the caller's context had ended by then. */
  datatype Seen = Seen(outcome: Outcome, contextDone: bool)

  /** A failure after which the same request is sent again: no answer, or a bus that is short of capacity. */
  predicate Passing(o: Outcome) {
    && o.Err? && !o.error.fatal && o.error.cause == Plain
    && (o.error.kind == Network || (o.error.kind == Server && o.error.status in {0, 429, 503}))
  }

  /**
   One round of the retry loop that ended in `r`: all but the last are passing failures
   in a live context, and unless the caller's context ended, the last one is `r` and is a
   passing failure only when the attempts are used up.
   */
  ghost predicate OneRound(outcomes: seq<Seen>, r: Outcome, attempts: nat, contextEnded: bool) {
    && |outcomes| <= attempts
    && (forall i :: 0 <= i < |outcomes| - 1 ==> Passing(outcomes[i].outcome) && !outcomes[i].contextDone)
    && (r.Ok? || !contextEnded ==> outcomes != [] && outcomes[|outcomes| - 1].outcome == r)
    && (!contextEnded && Passing(r) ==> |outcomes| == attempts)
  }

  lemma OneRoundAlso(outcomes: seq<Seen>, r: Outcome, attempts: nat, early: bool, late: bool)
    requires OneRound(outcomes, r, attempts, early) && (early ==> late)
    ensures OneRound(outcomes, r, attempts, late)
  {
  }

  /** The handshakes of one authorized request and whether each succeeded, and its rounds; `middle` ended the first. */
  datatype Exchange = Exchange(handshakes: seq<bool>, first: seq<Seen>, middle: Outcome, second: seq<Seen>) {
    function Outcomes(): seq<Seen> { first + second }
  }

  const SILENCE := Exchange([], [], Err(UsageError()), [])

  /** A second handshake happens exactly when the first round ended in an authentication failure. */
  ghost predicate Exchanged(x: Exchange, r: Outcome, attempts: nat, contextEnded: bool) {
    if |x.handshakes| == 0 || !x.handshakes[0] then x.handshakes == [false] && x.Outcomes() == [] && r.Err?
    else
      && OneRound(x.first, x.middle, attempts, contextEnded)
      && (if x.middle.Err? && x.middle.error.kind == Auth then
            && |x.handshakes| == 2
            && if x.handshakes[1] then OneRound(x.second, r, attempts, contextEnded) else x.second == [] && r.Err?
          else
            x.handshakes == [true] && x.second == [] && r == x.middle)
  }

  lemma ExchangedAlso(x: Exchange, r: Outcome, attempts: nat, early: bool, late: bool)
    requires Exchanged(x, r, attempts, early) && (early ==> late)
    ensures Exchanged(x, r, attempts, late)
  {
  }

  /** A reservation this agent signs for. */
  ghost predicate Fits(res: Reservation, self: string, to: string, body: string, now: Int64) {
    && LegalServerId(res.messageId) && LegalServerId(res.sender) && res.sequence != 0
    && res.sender == self
    && Accepted(SignedMessage(res.messageId, res.sequence, self, [to], now, body))
  }

  ghost predicate Fitting(minted: Outcome, self: string, to: string, body: string, now: Int64) {
    minted.Ok? && minted.value.Reserved? && Fits(minted.value.reservation, self, to, body, now)
  }

  class Network {
    var bus: Bus
    var wire: seq<Transmission>      // everything ever transmitted
    var events: nat
    const script: nat -> Happening
    ghost var outcomes: seq<Seen>    // what became of each transmission, for its sender
    ghost var sessions: seq<bool>    // every handshake, and whether it succeeded

    constructor (bus: Bus, wire: seq<Transmission>, script: nat -> Happening)
      ensures this.bus == bus && this.wire == wire && this.script == script && outcomes == [] && sessions == []
    {
      this.bus, this.wire, events, this.script := bus, wire, 0, script;
      outcomes, sessions := [], [];
    }

    /** The caller's deadline or cancellation struck since the given moment. */
    ghost predicate ContextEnded(since: nat) reads this`events {
      exists k: nat :: since <= k < events && script(k).contextDone
    }

    /** Time passes: anything transmitted so far may arrive. */
    method Elapse() returns (h: Happening)
      requires Consistent(bus)
      modifies this`events, this`bus
      ensures Consistent(bus) && GrowsFrom(old(bus), bus, wire)
      ensures h == script(old(events)) && events == old(events) + 1
    {
      h := script(events);
      events := events + 1;
      DeliveredGrows(bus, wire, h.late);
      bus := Delivered(bus, wire, h.late);
    }

    /** One HTTP round trip. */
    method Attempt(t: Transmission) returns (r: Outcome, contextDone: bool)
      requires Consistent(bus)
      modifies this
      ensures wire == old(wire) + [t]
      ensures outcomes == old(outcomes) + [Seen(r, contextDone)] && sessions == old(sessions)
      ensures events == old(events) + 1 && contextDone == script(old(events)).contextDone
      ensures Consistent(bus) && GrowsFrom(old(bus), bus, wire)
      ensures r.Ok? ==> Confirms(bus, t, r.value)
    {
      wire := wire + [t];
      assert wire[|wire| - 1] == t && t in wire;
      var h := Elapse();
      contextDone := h.contextDone;
      if h.fate == Lost {
        r := Err(h.failure);
      } else {
        ProcessedGrows(bus, t, h.minted, wire);
        GrowsTransitive(old(bus), bus, Processed(bus, t, h.minted), wire, wire);
        bus := Processed(bus, t, h.minted);
        r := if h.fate == AnswerLost then Err(h.failure) else if h.fate == Garbled then Err(BadAnswer()) else Answer(t);
      }
      outcomes := outcomes + [Seen(r, contextDone)];
    }

    /** How the bus answers a request it has just processed. */
    function Answer(t: Transmission): (r: Outcome)
      requires t.Mint? ==> t.key in bus.reservations
      reads this`bus
      ensures r.Ok? ==> Confirms(bus, t, r.value)
      ensures r.Ok? <==> t.Mint? || (t.envelope.key in bus.applied && bus.applied[t.envelope.key] == t.envelope)
    {
      match t
      case Mint(key) => Ok(Reserved(bus.reservations[key]))
      case Submit(e) =>
        if e.key in bus.applied && bus.applied[e.key] == e then Ok(Receipt(e))
        else Err(StatusError(CONFLICT, true, false))
    }

    /** One turn of the retry loop: the backoff, if this is a repetition, and the attempt. */
    method Turn(t: Transmission, repeated: bool) returns (r: Outcome, sent: bool, contextDone: bool)
      requires Consistent(bus)
      modifies this
      ensures if sent then wire == old(wire) + [t] && outcomes == old(outcomes) + [Seen(r, contextDone)]
              else wire == old(wire) && outcomes == old(outcomes) && r.Err? && contextDone
      ensures sessions == old(sessions) && old(events) <= events && (contextDone ==> ContextEnded(old(events)))
      ensures !repeated ==> sent
      ensures Consistent(bus) && GrowsFrom(old(bus), bus, wire)
      ensures r.Ok? ==> Confirms(bus, t, r.value)
    {
      if repeated {
        var h := Elapse();
        if h.contextDone {
          // The caller's deadline ended the backoff.
          return Err(Failure(Network, 0, false, Canceled)), false, true;
        }
      }
      label ready:
      r, contextDone := Attempt(t);
      sent := true;
      GrowsTransitive(old(bus), old@ready(bus), bus, old(wire), wire);
      assert contextDone ==> script(events - 1).contextDone;
    }

    /** The retry loop: the same request, at most `attempts` times. */
    method Do(t: Transmission, attempts: nat) returns (r: Outcome, ghost round: seq<Seen>)
      requires Consistent(bus) && attempts > 0
      modifies this
      ensures wire == old(wire) + Copies(t, |round|)
      ensures outcomes == old(outcomes) + round && sessions == old(sessions) && old(events) <= events
      ensures OneRound(round, r, attempts, ContextEnded(old(events)))
      ensures Consistent(bus) && GrowsFrom(old(bus), bus, wire)
      ensures r.Ok? ==> Confirms(bus, t, r.value)
    {
      r, round := Err(Failure(Network, 0, false, Plain)), [];
      for attempt := 0 to attempts
        invariant |round| == attempt && wire == old(wire) + Copies(t, attempt)
        invariant outcomes == old(outcomes) + round && sessions == old(sessions) && old(events) <= events
        invariant forall i :: 0 <= i < attempt ==> Passing(round[i].outcome) && !round[i].contextDone
        invariant attempt > 0 ==> r == round[attempt - 1].outcome
        invariant Consistent(bus) && GrowsFrom(old(bus), bus, wire)
        invariant r.Err?
      {
        label before:
        var sent, contextDone;
        r, sent, contextDone := Turn(t, attempt > 0);
        GrowsTransitive(old(bus), old@before(bus), bus, old@before(wire), wire);
        LaterContext(old(events), old@before(events));
        if !sent { return; }
        round := round + [Seen(r, contextDone)];
        if r.Ok? || !IsRetryable(r.error) || contextDone { return; }
      }
    }

    lemma LaterContext(since: nat, until: nat)
      requires since <= until
      ensures ContextEnded(until) ==> ContextEnded(since)
    {
    }

    /** A cached session, or a handshake, which may fail; nothing of the message travels. */
    method EnsureSession() returns (r: Result<(), Failure>)
      requires Consistent(bus)
      modifies this`events, this`bus, this`sessions
      ensures Consistent(bus) && GrowsFrom(old(bus), bus, wire)
      ensures sessions == old(sessions) + [r.Ok?] && events == old(events) + 1
    {
      var h := Elapse();
      r := if h.fate == Answered then Ok(()) else Err(h.failure);
      sessions := sessions + [r.Ok?];
    }

    /** A session, then a round under it. */
    method InSession(t: Transmission, attempts: nat) returns (r: Outcome, ok: bool, ghost round: seq<Seen>)
      requires Consistent(bus) && attempts > 0
      modifies this
      ensures wire == old(wire) + Copies(t, |round|)
      ensures outcomes == old(outcomes) + round && sessions == old(sessions) + [ok] && old(events) <= events
      ensures if ok then OneRound(round, r, attempts, ContextEnded(old(events))) else round == [] && r.Err?
      ensures Consistent(bus) && GrowsFrom(old(bus), bus, wire)
      ensures r.Ok? ==> Confirms(bus, t, r.value)
    {
      var s := EnsureSession();
      ok, round := s.Ok?, [];
      if s.Err? { return Err(s.error), ok, round; }
      label inSession:
      r, round := Do(t, attempts);
      GrowsTransitive(old(bus), old@inSession(bus), bus, old(wire), wire);
      LaterContext(old(events), old@inSession(events));
      OneRoundAlso(round, r, attempts, ContextEnded(old@inSession(events)), ContextEnded(old(events)));
    }

    /** A request under a session, with one new handshake when the bus no longer knows the session. */
    method AuthorizedRequest(t: Transmission, attempts: nat) returns (r: Outcome, ghost x: Exchange)
      requires Consistent(bus) && attempts > 0
      modifies this
      ensures |x.Outcomes()| <= 2 * attempts && wire == old(wire) + Copies(t, |x.Outcomes()|)
      ensures outcomes == old(outcomes) + x.Outcomes() && sessions == old(sessions) + x.handshakes
      ensures old(events) <= events && Exchanged(x, r, attempts, ContextEnded(old(events)))
      ensures Consistent(bus) && GrowsFrom(old(bus), bus, wire)
      ensures r.Ok? ==> Confirms(bus, t, r.value)
    {
      var ok;
      ghost var round;
      r, ok, round := InSession(t, attempts);
      x := Exchange([ok], round, r, []);
      if !ok || r.Ok? || r.error.kind != Auth { return; }
      label rejected:
      ghost var ended := ContextEnded(old(events));
      ghost var again;
      r, ok, again := InSession(t, attempts);
      LaterContext(old(events), old@rejected(events));
      OneRoundAlso(round, x.middle, attempts, ended, ContextEnded(old(events)));
      if ok { OneRoundAlso(again, r, attempts, ContextEnded(old@rejected(events)), ContextEnded(old(events))); }
      x := Exchange([true, ok], round, x.middle, again);
      CopiesAppend(t, |round|, |again|);
      GrowsTransitive(old(bus), old@rejected(bus), bus, old@rejected(wire), wire);
    }

    /** The first leg: an id and a sequence, whose form is checked before anything is signed. */
    method Reserve(key: string, attempts: nat)
      returns (r: Result<Reservation, Failure>, ghost x: Exchange, ghost answer: Outcome)
      requires Consistent(bus) && attempts > 0
      modifies this
      ensures |x.Outcomes()| <= 2 * attempts && wire == old(wire) + Copies(Mint(key), |x.Outcomes()|)
      ensures outcomes == old(outcomes) + x.Outcomes() && sessions == old(sessions) + x.handshakes
      ensures old(events) <= events && Exchanged(x, answer, attempts, ContextEnded(old(events)))
      ensures Consistent(bus) && GrowsFrom(old(bus), bus, wire)
      ensures r.Ok? <==> answer.Ok? && answer.value.Reserved?
                         && var res := answer.value.reservation;
                            LegalServerId(res.messageId) && LegalServerId(res.sender) && res.sequence != 0
      ensures r.Ok? ==> r.value == answer.value.reservation
      ensures answer.Err? ==> r == Err(answer.error)
    {
      var reply;
      reply, x := AuthorizedRequest(Mint(key), attempts);
      answer := reply;
      if reply.Err? { return Err(reply.error), x, answer; }
      var res := reply.value.reservation;
      if !LegalServerId(res.messageId) || !LegalServerId(res.sender) || res.sequence == 0 {
        return Err(BadAnswer()), x, answer;
      }
      return Ok(res), x, answer;
    }

    /** The checks, the first leg and the signature: what is ready to be submitted, if anything. */
    method Prepare(self: string, to: string, body: string, key: string, now: Int64, attempts: nat)
      returns (r: Result<Envelope, Failure>, ghost x: Exchange, ghost answer: Outcome)
      requires Consistent(bus) && attempts > 0
      modifies this
      ensures |x.Outcomes()| <= 2 * attempts && wire == old(wire) + Copies(Mint(key), |x.Outcomes()|)
      ensures outcomes == old(outcomes) + x.Outcomes() && sessions == old(sessions) + x.handshakes
      ensures Consistent(bus) && GrowsFrom(old(bus), bus, wire) && old(events) <= events
      ensures !Sendable(to, body, key) ==> x == SILENCE && r == Err(UsageError())
      ensures Sendable(to, body, key) ==> Exchanged(x, answer, attempts, ContextEnded(old(events)))
      ensures Sendable(to, body, key) && answer.Err? ==> r == Err(answer.error)
      ensures r.Ok? <==> Sendable(to, body, key) && Fitting(answer, self, to, body, now)
      ensures r.Ok? ==> Ready(r.value, self, to, body, key, now)
    {
      x, answer := SILENCE, Err(UsageError());
      if !Sendable(to, body, key) { return Err(UsageError()), x, answer; }
      var reserved;
      reserved, x, answer := Reserve(key, attempts);
      if reserved.Err? { return Err(reserved.error), x, answer; }
      r := SignOutgoing(self, reserved.value, to, body, key, now);
    }

    /** The second leg: success means that the bus holds exactly this message, once. */
    method SubmitReady(e: Envelope, attempts: nat)
      returns (r: Result<Envelope, Failure>, ghost x: Exchange, ghost answer: Outcome)
      requires Consistent(bus) && attempts > 0
      modifies this
      ensures |x.Outcomes()| <= 2 * attempts && wire == old(wire) + Copies(Submit(e), |x.Outcomes()|)
      ensures outcomes == old(outcomes) + x.Outcomes() && sessions == old(sessions) + x.handshakes
      ensures old(events) <= events && Exchanged(x, answer, attempts, ContextEnded(old(events)))
      ensures Consistent(bus) && GrowsFrom(old(bus), bus, wire)
      ensures if answer.Ok? then r == Ok(e) else r == Err(answer.error)
      ensures r.Ok? ==> e.key in bus.applied && bus.applied[e.key] == e
    {
      var reply;
      reply, x := AuthorizedRequest(Submit(e), attempts);
      answer := reply;
      r := if reply.Err? then Err(reply.error) else Ok(reply.value.envelope);
    }

    /**
     One `Send`. `to` and `key` are already trimmed, and a missing key already minted;
     `self` is the stored agent id, `now` the clock in milliseconds.

     Whatever the network does: at most one content `e` is ever transmitted, every
     copy of it identical; the bus gains nothing else from this call; success means
     the bus holds exactly that message, once. Each leg stops exactly where the retry
     and re-handshake rules say, the second one starts exactly when the first brought a
     reservation this agent signs for, and then decides the result.
     */
    method Send(self: string, to: string, body: string, key: string, now: Int64, attempts: nat)
      returns (r: Result<Envelope, Failure>, ghost e: Envelope,
               ghost mint: Exchange, ghost minted: Outcome, ghost submit: Exchange, ghost submitted: Outcome)
      requires Consistent(bus) && attempts > 0
      modifies this
      ensures |mint.Outcomes()| <= 2 * attempts && |submit.Outcomes()| <= 2 * attempts
      ensures wire == old(wire) + Copies(Mint(key), |mint.Outcomes()|) + Copies(Submit(e), |submit.Outcomes()|)
      ensures outcomes == old(outcomes) + mint.Outcomes() + submit.Outcomes()
      ensures sessions == old(sessions) + mint.handshakes + submit.handshakes
      ensures e.key == key && (submit.Outcomes() != [] ==> Ready(e, self, to, body, key, now))
      ensures Consistent(bus) && GrowsFrom(old(bus), bus, wire)
      ensures CountKey(bus.log, key) <= 1
      ensures r.Ok? ==> r.value == e && key in bus.applied && bus.applied[key] == e && CountKey(bus.log, key) == 1
      ensures Decided(r, mint, minted, submit, submitted, attempts, ContextEnded(old(events)),
                      Sendable(to, body, key), Fitting(minted, self, to, body, now))
    {
      submit, submitted := SILENCE, Err(UsageError());
      e := Envelope(key, "", 0, self, to, now, body, Over(""));
      var ready;
      ready, mint, minted := Prepare(self, to, body, key, now, attempts);
      if ready.Err? {
        AppliedOnce(bus, key);
        return Err(ready.error), e, mint, minted, submit, submitted;
      }
      e := ready.value;
      label signed:
      ghost var ended := ContextEnded(old(events));
      r, submit, submitted := SubmitReady(ready.value, attempts);
      GrowsTransitive(old(bus), old@signed(bus), bus, old@signed(wire), wire);
      AppliedOnce(bus, key);
      LaterContext(old(events), old@signed(events));
      ExchangedAlso(mint, minted, attempts, ended, ContextEnded(old(events)));
      ExchangedAlso(submit, submitted, attempts, ContextEnded(old@signed(events)), ContextEnded(old(events)));
    }
  }

  /** How the two legs decide the result of a send. */
  ghost predicate Decided(r: Result<Envelope, Failure>, mint: Exchange, minted: Outcome, submit: Exchange, submitted: Outcome,
                          attempts: nat, contextEnded: bool, sendable: bool, fits: bool) {
    if !sendable then mint == submit == SILENCE && r == Err(UsageError())
    else
      && Exchanged(mint, minted, attempts, contextEnded)
      && (if !fits then submit == SILENCE && r.Err? && (minted.Err? ==> r.error == minted.error)
          else
            && Exchanged(submit, submitted, attempts, contextEnded)
            && (r.Ok? <==> submitted.Ok?) && (r.Err? ==> r.error == submitted.error))
  }

  /** Signs under the agent's own id, and only when the bus agrees on it. */
  method SignOutgoing(self: string, res: Reservation, to: string, body: string, key: string, now: Int64)
    returns (r: Result<Envelope, Failure>)
    ensures r.Ok? ==>
              && Authentic(r.value, self)
              && r.value == Envelope(key, res.messageId, res.sequence, self, to, now, body,
                                     Over(CanonicalBytes(Content(r.value))))
    ensures r.Ok? <==>
              && res.sender == self
              && Accepted(SignedMessage(res.messageId, res.sequence, self, [to], now, body))
  {
    if res.sender != self { return Err(BadAnswer()); }
    var recipients := new string[1](_ => to);
    assert recipients[..] == [to];
    var bytes := Canonicalize(res.messageId, res.sequence, self, recipients, now, body);
    if bytes.Err? { return Err(UsageError()); }
    return Ok(Envelope(key, res.messageId, res.sequence, self, to, now, body, Over(bytes.value)));
  }

  /**
   After a `Send` under a key nobody used before, nothing the network still holds
   can give the bus a second message under that key, or another one.
   */
  lemma SendIsFinal(b0: Bus, w0: seq<Transmission>, b: Bus, mints: nat, sends: nat, e: Envelope, later: seq<Delivery>)
    requires e.key !in b0.applied
    requires forall t :: t in w0 && t.Submit? ==> t.envelope.key != e.key
    requires Consistent(b) && GrowsFrom(b0, b, w0 + Copies(Mint(e.key), mints) + Copies(Submit(e), sends))
    ensures var b' := Delivered(b, w0 + Copies(Mint(e.key), mints) + Copies(Submit(e), sends), later);
            && CountKey(b'.log, e.key) <= 1
            && (e.key in b'.applied ==> b'.applied[e.key] == e)
            && (e.key in b.applied ==> CountKey(b'.log, e.key) == 1)
  {
    var wire := w0 + Copies(Mint(e.key), mints) + Copies(Submit(e), sends);
    forall t | t in wire && t.Submit? && t.envelope.key == e.key ensures t.envelope == e {
      assert t in w0 || t in Copies(Mint(e.key), mints) || t in Copies(Submit(e), sends);
    }
    NeverASecondMessage(b, wire, later, e);
  }
}
