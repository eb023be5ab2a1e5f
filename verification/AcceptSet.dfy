/**
 The certificates an identity accepts, over whole runs of operator commands, and
 what a connection may therefore accept.
 */
module AcceptSet {
  import opened Common
  import opened Fingerprints
  import opened PinSet

  /** A canonical bus URL: its scheme decides, the rest is opaque. */
  datatype Url = Url(https: bool, address: string)

  /** The fields of a stored identity that matter here. */
  datatype Identity = Identity(bus: Url, fingerprints: seq<string>)

  datatype Command =
    | Add(pin: Fingerprint)
    | Remove(pin: Fingerprint)
    | Bootstrap(bus: Url, pin: Fingerprint)

  /** The stored set, read strictly: None when some entry is not a fingerprint. */
  ghost function Parsed(hexes: seq<string>): Option<seq<Fingerprint>> {
    if AllSpelt(hexes) then Some(Gathered(SpeltAll(hexes))) else None
  }

  /** One command; a refusal leaves the identity as it is. */
  ghost function Commanded(id: Identity, c: Command): Identity {
    match c
    case Add(pin) =>
      var current := Parsed(id.fingerprints);
      if current.None? || !id.bus.https || With(current.value, pin).None? then id
      else id.(fingerprints := Strings(With(current.value, pin).value))
    case Remove(pin) =>
      var current := Gathered(SpeltAll(id.fingerprints));
      if !Contains(current, pin) || |current| == 1 then id
      else id.(fingerprints := Strings(Without(current, pin)))
    case Bootstrap(bus, pin) =>
      var current := Parsed(id.fingerprints);
      if !bus.https || current.None? then id
      else if !id.bus.https && current.value == [] then Identity(bus, Strings(Gathered([pin])))
      else if id.bus == bus && Contains(current.value, pin) then id
      else if id.bus == bus && current.value == [] then id.(fingerprints := Strings(Gathered([pin])))
      else id
  }

  ghost function After(id: Identity, run: seq<Command>): Identity
    decreases |run|
  {
    if run == [] then id else After(Commanded(id, run[0]), run[1..])
  }

  /** What an operator named at enrolment or in a command. */
  ghost function Named(enrolled: set<Fingerprint>, run: seq<Command>): set<Fingerprint>
    decreases |run|
  {
    if run == [] then enrolled else Named(enrolled + {run[0].pin}, run[1..])
  }

  /** One or two pins, distinct, real and operator-named. */
  ghost predicate SoundSet(pins: seq<Fingerprint>, named: set<Fingerprint>) {
    WellFormed(pins) && 1 <= |pins| <= MAX_BUS_PINS && Elements(pins) <= named
  }

  /** A plaintext identity holds no pin; any other stores exactly a sound set. */
  ghost predicate Sound(id: Identity, named: set<Fingerprint>) {
    if !id.bus.https then id.fingerprints == []
    else exists pins: seq<Fingerprint> :: SoundSet(pins, named) && id.fingerprints == Strings(pins)
  }

  lemma Stored(id: Identity, named: set<Fingerprint>) returns (pins: seq<Fingerprint>)
    requires Sound(id, named) && id.bus.https
    ensures SoundSet(pins, named) && id.fingerprints == Strings(pins)
    ensures Parsed(id.fingerprints) == Some(pins) && Gathered(SpeltAll(id.fingerprints)) == pins
  {
    pins :| SoundSet(pins, named) && id.fingerprints == Strings(pins);
    StoredReadsBack(pins);
  }

  /** What a command makes of the stored set, as a set. */
  ghost function NewSet(pins: seq<Fingerprint>, c: Command): seq<Fingerprint> {
    match c
    case Add(pin) => if With(pins, pin).Some? then With(pins, pin).value else pins
    case Remove(pin) => if Contains(pins, pin) && |pins| != 1 then Without(pins, pin) else pins
    case Bootstrap(_, _) => pins
  }

  lemma NewSetSound(pins: seq<Fingerprint>, named: set<Fingerprint>, c: Command)
    requires SoundSet(pins, named)
    ensures SoundSet(NewSet(pins, c), named + {c.pin})
  {
    match c
    case Add(pin) =>
      forall f | f in NewSet(pins, c) ensures f in named + {pin} {
        assert Contains(NewSet(pins, c), f);
        assert f in pins ==> f in Elements(pins);
      }
    case Remove(pin) => WithoutSpec(pins, pin);
    case Bootstrap(_, _) =>
  }

  lemma CommandedSet(id: Identity, pins: seq<Fingerprint>, c: Command)
    requires id.bus.https && Parsed(id.fingerprints) == Some(pins) && pins != [] && id.fingerprints == Strings(pins)
    ensures Commanded(id, c) == id.(fingerprints := Strings(NewSet(pins, c)))
  {
  }

  /** The one way out of soundness: taking a plaintext identity to TLS with the zero value. */
  predicate Unpins(id: Identity, c: Command) {
    c.Bootstrap? && c.pin == ZERO && c.bus.https && !id.bus.https
  }

  lemma CommandKeeps(id: Identity, named: set<Fingerprint>, c: Command)
    requires Sound(id, named)
    ensures Sound(Commanded(id, c), named + {c.pin}) <==> !Unpins(id, c)
  {
    if id.bus.https {
      var pins := Stored(id, named);
      CommandedSet(id, pins, c);
      NewSetSound(pins, named, c);
    } else {
      PlaintextCommanded(id, c);
      assert Elements([c.pin]) == {c.pin};
      assert c.Bootstrap? && c.bus.https && c.pin != ZERO ==> SoundSet([c.pin], named + {c.pin});
    }
  }

  lemma PlaintextCommanded(id: Identity, c: Command)
    requires !id.bus.https && id.fingerprints == []
    ensures Commanded(id, c) ==
            if c.Bootstrap? && c.bus.https then Identity(c.bus, Strings(if c.pin == ZERO then [] else [c.pin])) else id
  {
    assert Parsed([]) == Some([]);
    assert [c.pin][..0] == [];
    assert Gathered([c.pin]) == Gather([], c.pin);
  }

  ghost predicate NeverUnpins(id: Identity, run: seq<Command>)
    decreases |run|
  {
    run == [] || (!Unpins(id, run[0]) && NeverUnpins(Commanded(id, run[0]), run[1..]))
  }

  /** Every run of commands keeps the accept-set sound, unless some bootstrap unpins it. */
  lemma {:induction false} RunKeeps(id: Identity, enrolled: set<Fingerprint>, run: seq<Command>)
    requires Sound(id, enrolled) && NeverUnpins(id, run)
    ensures Sound(After(id, run), Named(enrolled, run))
    decreases |run|
  {
    if run != [] {
      CommandKeeps(id, enrolled, run[0]);
      RunKeeps(Commanded(id, run[0]), enrolled + {run[0].pin}, run[1..]);
    }
  }

  lemma {:induction false} NamedMeaning(enrolled: set<Fingerprint>, run: seq<Command>, f: Fingerprint)
    ensures f in Named(enrolled, run) <==> f in enrolled || exists i :: 0 <= i < |run| && run[i].pin == f
    decreases |run|
  {
    if run != [] {
      NamedMeaning(enrolled + {run[0].pin}, run[1..], f);
      if i :| 0 <= i < |run[1..]| && run[1..][i].pin == f { assert run[i + 1].pin == f; }
      if i :| 0 < i < |run| && run[i].pin == f { assert run[1..][i - 1].pin == f; }
    }
  }

  /** The zero value is refused everywhere else; a bootstrap with it leaves a TLS identity without any pin. */
  lemma ZeroBootstrapUnpins(plain: Url, bus: Url)
    requires !plain.https && bus.https
    ensures Commanded(Identity(plain, []), Bootstrap(bus, ZERO)) == Identity(bus, [])
  {
    PlaintextCommanded(Identity(plain, []), Bootstrap(bus, ZERO));
  }

  /** The store's three commands on the record in place. */
  class IdentityRecord {
    var identity: Identity

    constructor (identity: Identity)
      ensures this.identity == identity
    {
      this.identity := identity;
    }

    method AddBusPin(pin: Fingerprint)
      modifies this
      ensures identity == Commanded(old(identity), Add(pin))
    {
      var current := ParseBusPinSet(identity.fingerprints);
      if current.None? || !identity.bus.https { return; }
      var updated := With(current.value, pin);
      if updated.None? { return; }
      identity := identity.(fingerprints := Strings(updated.value));
    }

    method RemoveBusPin(pin: Fingerprint)
      modifies this
      ensures identity == Commanded(old(identity), Remove(pin))
    {
      var current := ParseBusPinSetLenient(identity.fingerprints);
      if !Contains(current, pin) || |current| == 1 { return; }
      identity := identity.(fingerprints := Strings(Without(current, pin)));
    }

    method Obey(c: Command)
      modifies this
      ensures identity == Commanded(old(identity), c)
    {
      match c
      case Add(pin) => AddBusPin(pin);
      case Remove(pin) => RemoveBusPin(pin);
      case Bootstrap(bus, pin) => BootstrapTlsPin(bus, pin);
    }

    method BootstrapTlsPin(bus: Url, pin: Fingerprint)
      modifies this
      ensures identity == Commanded(old(identity), Bootstrap(bus, pin))
    {
      if !bus.https { return; }
      var current := ParseBusPinSet(identity.fingerprints);
      if current.None? { return; }
      var first := NewBusPinSet([pin]);
      if !identity.bus.https && current.value == [] {
        identity := Identity(bus, Strings(first));
      } else if identity.bus == bus && !Contains(current.value, pin) && current.value == [] {
        identity := identity.(fingerprints := Strings(first));
      }
    }
  }

  // ----- Connections ---------------------------------------------------------

  datatype Refusal = Damaged | TooMany | Disagrees | Unpinned | PinOnPlaintext | NoOwnCertificate

  /** The set recorded for this very bus; an identity of another bus, or none, has nothing to say. */
  ghost function StoredPins(id: Option<Identity>, bus: Url): Result<seq<Fingerprint>, Refusal> {
    if id.None? || id.value.fingerprints == [] || id.value.bus != bus then Ok([])
    else if Parsed(id.value.fingerprints).None? then Err(Damaged)
    else if |Parsed(id.value.fingerprints).value| > MAX_BUS_PINS then Err(TooMany)
    else Ok(Parsed(id.value.fingerprints).value)
  }

  /** An asserted fingerprint may narrow the stored set and never widens it. */
  ghost function ResolvedPins(id: Option<Identity>, bus: Url, asserted: Fingerprint): Result<seq<Fingerprint>, Refusal> {
    var stored := StoredPins(id, bus);
    if stored.Err? then stored
    else if asserted == ZERO then stored
    else if stored.value == [] || Contains(stored.value, asserted) then Ok(Gathered([asserted]))
    else Err(Disagrees)
  }

  function TransportSecurity(bus: Url, pins: seq<Fingerprint>): Option<Refusal> {
    if bus.https && pins == [] then Some(Unpinned)
    else if !bus.https && pins != [] then Some(PinOnPlaintext)
    else None
  }

  /** A resolved set is well formed, and within the stored set whenever there is one. */
  lemma ResolvedWithinStored(id: Option<Identity>, bus: Url, asserted: Fingerprint)
    requires ResolvedPins(id, bus, asserted).Ok?
    ensures var r, stored := ResolvedPins(id, bus, asserted).value, StoredPins(id, bus).value;
            && WellFormed(r) && WellFormed(stored)
            && (stored != [] ==> r != [] && Elements(r) <= Elements(stored))
            && (stored == [] ==> Elements(r) == {asserted} - {ZERO})
  {
    if id.Some? { GatheredSpec(SpeltAll(id.value.fingerprints)); }
    GatheredSpec([asserted]);
    assert Elements([asserted]) == {asserted};
    var r, stored := ResolvedPins(id, bus, asserted).value, StoredPins(id, bus).value;
    if asserted != ZERO {
      GatheredOfWellFormed([asserted]);
      assert Contains(stored, asserted) ==> asserted in Elements(stored);
    }
  }

  /** The set recorded on the selected identity, when it belongs to this very bus. */
  method ReadPins(id: Option<Identity>, bus: Url) returns (r: Result<seq<Fingerprint>, Refusal>)
    ensures r == StoredPins(id, bus)
    ensures r.Ok? ==> WellFormed(r.value)
  {
    if id.None? || id.value.fingerprints == [] || id.value.bus != bus { return Ok([]); }
    var parsed := ParseBusPinSet(id.value.fingerprints);
    GatheredSpec(SpeltAll(id.value.fingerprints));
    if parsed.None? { return Err(Damaged); }
    if |parsed.value| > MAX_BUS_PINS { return Err(TooMany); }
    return Ok(parsed.value);
  }

  /** The stored set first, then the asserted fingerprint. */
  method ResolvePins(id: Option<Identity>, bus: Url, asserted: Fingerprint) returns (r: Result<seq<Fingerprint>, Refusal>)
    ensures r == ResolvedPins(id, bus, asserted)
    ensures r.Ok? ==> WellFormed(r.value)
  {
    var stored := ReadPins(id, bus);
    if stored.Err? || asserted == ZERO { return stored; }
    if stored.value != [] && !Contains(stored.value, asserted) { return Err(Disagrees); }
    var narrowed := NewBusPinSet([asserted]);
    GatheredSpec([asserted]);
    return Ok(narrowed);
  }

  datatype Verdict = Accept | Mismatch | NoCertificate | NotValid

  /** The handshake's check: identity first, then the validity window. */
  function VerifyPinned(pins: seq<Fingerprint>, chain: seq<seq<Byte>>, digest: seq<Byte> -> Fingerprint,
                        valid: seq<Byte> -> bool): (v: Verdict)
    ensures v.Accept? <==> chain != [] && chain[0] != [] && Contains(pins, digest(chain[0])) && valid(chain[0])
    ensures v.NotValid? <==> chain != [] && chain[0] != [] && Contains(pins, digest(chain[0])) && !valid(chain[0])
    ensures v.NoCertificate? <==> pins != [] && (chain == [] || chain[0] == [])
  {
    if pins == [] then Mismatch
    else if chain == [] || chain[0] == [] then NoCertificate
    else if !Contains(pins, digest(chain[0])) then Mismatch
    else if valid(chain[0]) then Accept else NotValid
  }

  /** A resolved pin of a sound identity was named by an operator, or asserted; on its own bus it was named. */
  lemma ResolvedWasNamed(id: Identity, named: set<Fingerprint>, bus: Url, asserted: Fingerprint, f: Fingerprint)
    requires Sound(id, named) && bus.https && ResolvedPins(Some(id), bus, asserted).Ok?
    requires f in ResolvedPins(Some(id), bus, asserted).value
    ensures f in named + {asserted} && f != ZERO
    ensures bus == id.bus ==> f in named
  {
    ResolvedWithinStored(Some(id), bus, asserted);
    assert f in Elements(ResolvedPins(Some(id), bus, asserted).value);
    if id.bus.https { var stored := Stored(id, named); }
  }

  /**
   End to end: after any run of commands on an enrolled identity, a certificate that
   a handshake accepts has a fingerprint some operator named, at enrolment, in a
   command, or for this connection.
   */
  lemma AcceptedWasNamed(id: Identity, enrolled: set<Fingerprint>, run: seq<Command>, bus: Url, asserted: Fingerprint,
                         chain: seq<seq<Byte>>, digest: seq<Byte> -> Fingerprint, valid: seq<Byte> -> bool)
    requires Sound(id, enrolled) && NeverUnpins(id, run)
    requires ResolvedPins(Some(After(id, run)), bus, asserted).Ok?
    requires bus.https && VerifyPinned(ResolvedPins(Some(After(id, run)), bus, asserted).value, chain, digest, valid).Accept?
    ensures digest(chain[0]) in Named(enrolled, run) + {asserted} && digest(chain[0]) != ZERO
    ensures bus == After(id, run).bus ==> digest(chain[0]) in Named(enrolled, run)
  {
    RunKeeps(id, enrolled, run);
    ResolvedWasNamed(After(id, run), Named(enrolled, run), bus, asserted, digest(chain[0]));
  }

  /** What carries a request: the embedder's own client, or one built for a set of pins. */
  datatype Carrier = Embedder | Built(pins: seq<Fingerprint>)

  /** What a connection came to: the embedder's own, plaintext, or TLS with the handshake's verdict. */
  datatype Connection = Foreign | Plaintext | Secured(verdict: Verdict)

  /** The cached transport: rebuilt unless it accepts exactly the certificates asked for. */
  class TransportCache {
    const embedded: bool                  // the embedder supplied its own client
    var built: Option<seq<Fingerprint>>

    ghost predicate Valid() reads this { built.Some? ==> WellFormed(built.value) }

    constructor (embedded: bool)
      ensures Valid() && built.None? && this.embedded == embedded
    {
      this.embedded := embedded;
      built := None;
    }

    /**
     The security decision comes first, whatever is cached: TLS needs a pin, plaintext
     must not have one. `certificate` is whether this end's own certificate loads, which
     only a pinned connection needs.
     */
    method Doer(bus: Url, pins: seq<Fingerprint>, certificate: bool) returns (r: Result<Carrier, Refusal>)
      requires Valid() && WellFormed(pins)
      modifies this
      ensures Valid()
      ensures embedded ==> r == Ok(Embedder) && built == old(built)
      ensures !embedded ==>
                && (r == Err(Unpinned) <==> bus.https && pins == [])
                && (r == Err(PinOnPlaintext) <==> !bus.https && pins != [])
                && (r == Err(NoOwnCertificate) <==> bus.https && pins != [] && !certificate)
                && (r.Ok? <==> if bus.https then pins != [] && certificate else pins == [])
      ensures !embedded && r.Ok? ==> r.value.Built? && built == Some(r.value.pins) && SameAccepted(r.value.pins, pins)
      ensures !embedded && r.Ok? ==> (bus.https <==> r.value.pins != [])
      ensures !embedded && r.Ok? && old(built).Some? && SameAccepted(old(built).value, pins) ==> built == old(built)
      ensures r.Err? ==> built == old(built)
    {
      if embedded { return Ok(Embedder); }
      var refused := TransportSecurity(bus, pins);
      if refused.Some? { return Err(refused.value); }
      if pins != [] && !certificate { return Err(NoOwnCertificate); }
      if built.Some? {
        var same := Equal(built.value, pins);
        if same {
          SameAcceptedEmpty(built.value, pins);
          return Ok(Built(built.value));
        }
      }
      built := Some(pins);
      return Ok(Built(pins));
    }

    /**
     One connection: the pins are resolved, the carrier is chosen, and on TLS the bus
     presents `chain`. An accepted leaf is one of the pins resolved for this connection.
     */
    method Connect(id: Option<Identity>, bus: Url, asserted: Fingerprint, certificate: bool, chain: seq<seq<Byte>>,
                   digest: seq<Byte> -> Fingerprint, valid: seq<Byte> -> bool)
      returns (r: Result<Connection, Refusal>)
      requires Valid()
      modifies this
      ensures Valid()
      ensures embedded ==> r == Ok(Foreign) || (r.Err? && ResolvedPins(id, bus, asserted) == Err(r.error))
      ensures !embedded && r.Ok? ==> if bus.https then r.value.Secured? else r == Ok(Plaintext)
      ensures !embedded && r == Ok(Plaintext) ==> ResolvedPins(id, bus, asserted) == Ok([])
      ensures !embedded && bus.https && ResolvedPins(id, bus, asserted) == Ok([]) ==> r == Err(Unpinned)
      ensures r == Ok(Secured(Accept)) ==> bus.https && AcceptedBy(id, bus, asserted, chain, digest) && valid(chain[0])
      ensures !embedded && bus.https && certificate && AcceptedBy(id, bus, asserted, chain, digest) && valid(chain[0]) ==>
                r == Ok(Secured(Accept))
    {
      var pins := ResolvePins(id, bus, asserted);
      if pins.Err? { return Err(pins.error); }
      var carrier := Doer(bus, pins.value, certificate);
      if carrier.Err? { return Err(carrier.error); }
      if carrier.value.Embedder? { return Ok(Foreign); }
      if !bus.https { return Ok(Plaintext); }
      assert chain != [] ==> (Contains(carrier.value.pins, digest(chain[0])) <==> Contains(pins.value, digest(chain[0])));
      return Ok(Secured(VerifyPinned(carrier.value.pins, chain, digest, valid)));
    }
  }

  /** The leaf is among the pins resolved for this connection, and has a real fingerprint. */
  ghost predicate AcceptedBy(id: Option<Identity>, bus: Url, asserted: Fingerprint, chain: seq<seq<Byte>>,
                             digest: seq<Byte> -> Fingerprint)
  {
    && chain != [] && chain[0] != [] && digest(chain[0]) != ZERO
    && ResolvedPins(id, bus, asserted).Ok? && digest(chain[0]) in ResolvedPins(id, bus, asserted).value
  }

  lemma SameAcceptedEmpty(a: seq<Fingerprint>, b: seq<Fingerprint>)
    requires WellFormed(a) && WellFormed(b) && SameAccepted(a, b)
    ensures a == [] <==> b == []
  {
    if a != [] { assert Contains(a, a[0]); }
    if b != [] { assert Contains(b, b[0]); }
  }

  // ----- Whole runs -----------------------------------------------------------

  /** What happens to one client over its life: the operator changes the identity, or it connects somewhere. */
  datatype Event =
    | Operates(command: Command)
    | Connects(bus: Url, asserted: Fingerprint, certificate: bool, chain: seq<seq<Byte>>)

  function CommandsOf(events: seq<Event>): seq<Command> {
    if events == [] then []
    else (if events[0].Operates? then [events[0].command] else []) + CommandsOf(events[1..])
  }

  lemma {:induction false} CommandsOfSnoc(events: seq<Event>, e: Event)
    ensures CommandsOf(events + [e]) == CommandsOf(events) + (if e.Operates? then [e.command] else [])
    decreases |events|
  {
    if events != [] {
      assert (events + [e])[1..] == events[1..] + [e];
      CommandsOfSnoc(events[1..], e);
    }
  }

  lemma {:induction false} AfterSnoc(id: Identity, run: seq<Command>, c: Command)
    ensures After(id, run + [c]) == Commanded(After(id, run), c)
    decreases |run|
  {
    if run == [] {
      assert (run + [c])[1..] == [];
    } else {
      assert (run + [c])[1..] == run[1..] + [c];
      AfterSnoc(Commanded(id, run[0]), run[1..], c);
    }
  }

  /** Named at enrolment, or by a command before this point. */
  ghost predicate NamedBefore(enrolled: set<Fingerprint>, events: seq<Event>, k: nat, f: Fingerprint)
    requires k <= |events|
  {
    f in enrolled || exists i :: 0 <= i < k && events[i].Operates? && events[i].command.pin == f
  }

  /** Nothing for a command, what came of it for a connection. */
  datatype Aftermath = Nothing | Came(result: Result<Connection, Refusal>)

  /**
   The connection at `k`: TLS is verified, and a leaf it accepts has a real fingerprint that
   an operator had named by then, or that was asserted for this very connection; on the bus
   of the identity, as the commands so far have left it, it was named.
   */
  ghost predicate VerifiedAt(began: Identity, enrolled: set<Fingerprint>, events: seq<Event>, k: nat, a: Aftermath,
                             digest: seq<Byte> -> Fingerprint)
    requires k < |events|
  {
    && (a.Came? <==> events[k].Connects?)
    && (a.Came? && a.result.Ok? ==> if events[k].bus.https then a.result.value.Secured? else a.result.value == Plaintext)
    && (a == Came(Ok(Secured(Accept))) ==>
          && events[k].chain != [] && digest(events[k].chain[0]) != ZERO
          && (digest(events[k].chain[0]) == events[k].asserted || NamedBefore(enrolled, events, k, digest(events[k].chain[0])))
          && (events[k].bus == After(began, CommandsOf(events[..k])).bus ==>
                NamedBefore(enrolled, events, k, digest(events[k].chain[0]))))
  }

  ghost predicate AllVerified(began: Identity, enrolled: set<Fingerprint>, events: seq<Event>, results: seq<Aftermath>,
                              digest: seq<Byte> -> Fingerprint)
  {
    |results| <= |events| && forall k :: 0 <= k < |results| ==> VerifiedAt(began, enrolled, events, k, results[k], digest)
  }

  lemma OneMoreVerified(began: Identity, enrolled: set<Fingerprint>, events: seq<Event>, results: seq<Aftermath>,
                        result: Aftermath, digest: seq<Byte> -> Fingerprint)
    requires AllVerified(began, enrolled, events, results, digest) && |results| < |events|
    requires VerifiedAt(began, enrolled, events, |results|, result, digest)
    ensures AllVerified(began, enrolled, events, results + [result], digest)
  {
  }

  /** The state after `k` events: the identity, sound for the fingerprints named so far. */
  ghost predicate Reached(began: Identity, enrolled: set<Fingerprint>, events: seq<Event>, k: nat, id: Identity,
                          named: set<Fingerprint>)
    requires k <= |events|
  {
    && id == After(began, CommandsOf(events[..k]))
    && Sound(id, named) && NeverUnpins(id, CommandsOf(events[k..]))
    && forall f :: f in named ==> NamedBefore(enrolled, events, k, f)
  }

  lemma ReachedFirst(id: Identity, enrolled: set<Fingerprint>, events: seq<Event>)
    requires Sound(id, enrolled) && NeverUnpins(id, CommandsOf(events))
    ensures Reached(id, enrolled, events, 0, id, enrolled)
  {
    assert events[..0] == [] && events[0..] == events;
  }

  lemma ReachesNext(began: Identity, enrolled: set<Fingerprint>, events: seq<Event>, k: nat, id: Identity, named: set<Fingerprint>)
    requires k < |events| && Reached(began, enrolled, events, k, id, named)
    ensures events[k].Operates? ==>
              Reached(began, enrolled, events, k + 1, Commanded(id, events[k].command), named + {events[k].command.pin})
    ensures events[k].Connects? ==> Reached(began, enrolled, events, k + 1, id, named)
  {
    assert events[k..][1..] == events[k + 1..];
    assert events[..k + 1] == events[..k] + [events[k]];
    CommandsOfSnoc(events[..k], events[k]);
    if events[k].Operates? {
      var c := events[k].command;
      assert CommandsOf(events[k..])[1..] == CommandsOf(events[k + 1..]);
      CommandKeeps(id, named, c);
      AfterSnoc(began, CommandsOf(events[..k]), c);
    } else {
      assert CommandsOf(events[k..]) == CommandsOf(events[k + 1..]);
      assert CommandsOf(events[..k + 1]) == CommandsOf(events[..k]);
    }
  }

  lemma ConnectionVerified(began: Identity, enrolled: set<Fingerprint>, events: seq<Event>, k: nat, id: Identity,
                           named: set<Fingerprint>, r: Result<Connection, Refusal>, digest: seq<Byte> -> Fingerprint)
    requires k < |events| && Reached(began, enrolled, events, k, id, named) && events[k].Connects?
    requires r.Ok? ==> if events[k].bus.https then r.value.Secured? else r == Ok(Plaintext)
    requires r == Ok(Secured(Accept)) ==> AcceptedBy(Some(id), events[k].bus, events[k].asserted, events[k].chain, digest)
    ensures VerifiedAt(began, enrolled, events, k, Came(r), digest)
  {
    if r == Ok(Secured(Accept)) {
      ResolvedWasNamed(id, named, events[k].bus, events[k].asserted, digest(events[k].chain[0]));
    }
  }

  method Happens(record: IdentityRecord, cache: TransportCache, events: seq<Event>, k: nat, digest: seq<Byte> -> Fingerprint,
                 valid: seq<Byte> -> bool, ghost began: Identity, ghost enrolled: set<Fingerprint>, ghost named: set<Fingerprint>)
    returns (result: Aftermath, ghost named': set<Fingerprint>)
    requires k < |events| && cache.Valid() && !cache.embedded
    requires Reached(began, enrolled, events, k, record.identity, named)
    modifies record, cache
    ensures cache.Valid() && Reached(began, enrolled, events, k + 1, record.identity, named')
    ensures VerifiedAt(began, enrolled, events, k, result, digest)
  {
    ReachesNext(began, enrolled, events, k, record.identity, named);
    if events[k].Operates? {
      record.Obey(events[k].command);
      return Nothing, named + {events[k].command.pin};
    }
    var r := cache.Connect(Some(record.identity), events[k].bus, events[k].asserted, events[k].certificate, events[k].chain,
                           digest, valid);
    ConnectionVerified(began, enrolled, events, k, record.identity, named, r, digest);
    return Came(r), named;
  }

  /**
   One client over any run of commands and connections to any buses, with one cached
   transport: whatever was resolved and cached before, each connection is `VerifiedAt` its place.
   */
  method Live(record: IdentityRecord, cache: TransportCache, events: seq<Event>, ghost enrolled: set<Fingerprint>,
              digest: seq<Byte> -> Fingerprint, valid: seq<Byte> -> bool)
    returns (results: seq<Aftermath>)
    requires cache.Valid() && !cache.embedded
    requires Sound(record.identity, enrolled) && NeverUnpins(record.identity, CommandsOf(events))
    modifies record, cache
    ensures |results| == |events|
    ensures record.identity == After(old(record.identity), CommandsOf(events))
    ensures AllVerified(old(record.identity), enrolled, events, results, digest)
  {
    results := [];
    ghost var named, began := enrolled, record.identity;
    ReachedFirst(began, enrolled, events);
    for k := 0 to |events|
      invariant |results| == k && cache.Valid()
      invariant Reached(began, enrolled, events, k, record.identity, named)
      invariant AllVerified(began, enrolled, events, results, digest)
    {
      var result;
      result, named := Happens(record, cache, events, k, digest, valid, began, enrolled, named);
      OneMoreVerified(began, enrolled, events, results, result, digest);
      results := results + [result];
    }
    assert events[..|events|] == events;
  }
}
