/**
 What the client relies on about a bus: reservations and accepted messages are
 both keyed by idempotency key, so a repeated request is answered from a table.
 The table of accepted messages is durable; reservations may expire.
 */
module BusLog {
  import opened Canonical

  /** A detached signature, named by the bytes it covers. */
  datatype Signature = Over(bytes: string)

  /** The send request, exactly as it travels. */
  datatype Envelope = Envelope(
    key: string,
    messageId: string,
    sequence: Uint64,
    sender: string,
    to: string,
    timestamp: Int64,
    body: string,
    signature: Signature)

  datatype Reservation = Reservation(messageId: string, sequence: Uint64, sender: string)

  datatype Transmission = Mint(key: string) | Submit(envelope: Envelope)

  datatype Bus = Bus(
    reservations: map<string, Reservation>,
    applied: map<string, Envelope>,
    log: seq<Envelope>)

  predicate Redeems(e: Envelope, b: Bus) {
    e.key in b.reservations && b.reservations[e.key] == Reservation(e.messageId, e.sequence, e.sender)
  }

  /**
   Processing one delivered request; `minted` is what a new reservation would hold.
   A duplicate, a key reused for other content and an unreserved message change nothing.
   */
  function Processed(b: Bus, t: Transmission, minted: Reservation): Bus {
    match t
    case Mint(key) => if key in b.reservations then b else b.(reservations := b.reservations[key := minted])
    case Submit(e) =>
      if e.key in b.applied || !Redeems(e, b) then b
      else b.(applied := b.applied[e.key := e], log := b.log + [e])
  }

  /** The table and the log agree, and no key was applied twice. */
  ghost predicate Consistent(b: Bus) {
    && (forall i, j :: 0 <= i < j < |b.log| ==> b.log[i].key != b.log[j].key)
    && (forall e :: e in b.log ==> e.key in b.applied && b.applied[e.key] == e)
    && (forall k :: k in b.applied ==> b.applied[k] in b.log && b.applied[k].key == k)
  }

  /** How many messages the bus accepted under `key`. */
  function CountKey(log: seq<Envelope>, key: string): nat {
    if log == [] then 0 else CountKey(log[..|log| - 1], key) + (if log[|log| - 1].key == key then 1 else 0)
  }

  lemma {:induction false} ConsistentCount(b: Bus, n: nat, key: string)
    requires Consistent(b) && n <= |b.log|
    ensures CountKey(b.log[..n], key) == if exists i :: 0 <= i < n && b.log[i].key == key then 1 else 0
  {
    if n > 0 {
      assert b.log[..n][..n - 1] == b.log[..n - 1];
      ConsistentCount(b, n - 1, key);
    }
  }

  /** A key is applied exactly when one message in the log carries it. */
  lemma AppliedOnce(b: Bus, key: string)
    requires Consistent(b)
    ensures CountKey(b.log, key) == if key in b.applied then 1 else 0
  {
    assert b.log[..|b.log|] == b.log;
    ConsistentCount(b, |b.log|, key);
    if key in b.applied { var i :| 0 <= i < |b.log| && b.log[i] == b.applied[key]; }
    if i :| 0 <= i < |b.log| && b.log[i].key == key { assert b.log[i] in b.log; }
  }

  lemma ProcessedConsistent(b: Bus, t: Transmission, minted: Reservation)
    requires Consistent(b)
    ensures Consistent(Processed(b, t, minted))
  {
    var b' := Processed(b, t, minted);
    if t.Submit? && b' != b {
      assert b'.log == b.log + [t.envelope];
      forall i | 0 <= i < |b.log| ensures b.log[i].key != t.envelope.key { assert b.log[i] in b.log; }
    }
  }

  /** Something on the wire reaches the bus, or an outstanding reservation is forgotten. */
  datatype Delivery = Arrives(index: nat, minted: Reservation) | Forgets(key: string)

  function DeliveredOne(b: Bus, wire: seq<Transmission>, d: Delivery): Bus {
    match d
    case Arrives(i, minted) => if i < |wire| then Processed(b, wire[i], minted) else b
    case Forgets(key) => b.(reservations := b.reservations - {key})
  }

  /** Any of the wire's content arriving in any order and any number of times. */
  function Delivered(b: Bus, wire: seq<Transmission>, order: seq<Delivery>): Bus {
    if order == [] then b
    else DeliveredOne(Delivered(b, wire, order[..|order| - 1]), wire, order[|order| - 1])
  }

  /** What a bus may gain from a wire: accepted messages are never lost, and each new one was transmitted. */
  ghost predicate GrowsFrom(b: Bus, b': Bus, wire: seq<Transmission>) {
    && b.log <= b'.log
    && (forall k :: k in b.applied ==> k in b'.applied && b'.applied[k] == b.applied[k])
    && (forall k :: k in b'.applied && k !in b.applied ==> Submit(b'.applied[k]) in wire)
  }

  lemma GrowsTransitive(b: Bus, b': Bus, b'': Bus, wire: seq<Transmission>, wire': seq<Transmission>)
    requires GrowsFrom(b, b', wire) && GrowsFrom(b', b'', wire') && wire <= wire'
    ensures GrowsFrom(b, b'', wire')
  {
  }

  lemma ProcessedGrows(b: Bus, t: Transmission, minted: Reservation, wire: seq<Transmission>)
    requires Consistent(b) && t in wire
    ensures Consistent(Processed(b, t, minted)) && GrowsFrom(b, Processed(b, t, minted), wire)
  {
    ProcessedConsistent(b, t, minted);
  }

  lemma {:induction false} DeliveredGrows(b: Bus, wire: seq<Transmission>, order: seq<Delivery>)
    requires Consistent(b)
    ensures Consistent(Delivered(b, wire, order)) && GrowsFrom(b, Delivered(b, wire, order), wire)
  {
    if order != [] {
      var last, before := order[|order| - 1], Delivered(b, wire, order[..|order| - 1]);
      DeliveredGrows(b, wire, order[..|order| - 1]);
      if last.Arrives? && last.index < |wire| { ProcessedGrows(before, wire[last.index], last.minted, wire); }
      GrowsTransitive(b, before, DeliveredOne(before, wire, last), wire, wire);
    }
  }

  /**
   Once the only content ever transmitted under a key is `e`, nothing that arrives
   afterwards, however late and however often, makes the bus hold more than one
   message under that key, or a message other than `e`.
   */
  lemma NeverASecondMessage(b: Bus, wire: seq<Transmission>, later: seq<Delivery>, e: Envelope)
    requires Consistent(b)
    requires forall t :: t in wire && t.Submit? && t.envelope.key == e.key ==> t.envelope == e
    requires e.key in b.applied ==> b.applied[e.key] == e
    ensures var b' := Delivered(b, wire, later);
            && CountKey(b'.log, e.key) <= 1
            && (e.key in b'.applied ==> b'.applied[e.key] == e)
            && (e.key in b.applied ==> CountKey(b'.log, e.key) == 1)
  {
    DeliveredGrows(b, wire, later);
    AppliedOnce(Delivered(b, wire, later), e.key);
  }
}
