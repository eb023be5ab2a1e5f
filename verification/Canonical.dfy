/**
 The canonical bytes of a message: what the messaging key signs.

 `CanonicalBytes` is the layout as a value. `Canonicalize` is the encoder: it
 validates, sorts a copy of the caller's recipient slice and appends field by
 field. The encoding is proved injective up to the order of the recipients.
 */
module Canonical {
  import opened Common
  import opened Framing
  import opened MessageIds
  import opened SortedStrings

  const MESSAGE_SIGNING_CONTEXT := "agent-bus/msg-sig/1"
  const MAX_SIGNED_BODY_LEN := 0x10_0000
  const MAX_SIGNED_RECIPIENTS := 4096

  type Uint64 = n: int | 0 <= n < UINT64_LIMIT
  type Int64 = n: int | -0x8000_0000_0000_0000 <= n < 0x8000_0000_0000_0000

  datatype SignedMessage = SignedMessage(
    messageId: string,
    sequence: Uint64,
    sender: string,
    recipients: seq<string>,
    timestamp: Int64,
    body: string)

  datatype Rejection =
    | BadMessageId | SequenceUnset | SequenceMismatch | BadSender | WrongOrigin
    | NoRecipients | TooManyRecipients | BadRecipient | DuplicateRecipient
    | BadTimestamp | BodyTooLong

  /** A message the format signs: its id is the sender's own bus's, its audience is a set. */
  ghost predicate Accepted(m: SignedMessage) {
    && QualifyingBusId(m.sender).Some?
    && IsMessageId(m.messageId, QualifyingBusId(m.sender).value, m.sequence)
    && 1 <= |m.recipients| <= MAX_SIGNED_RECIPIENTS
    && (forall r :: r in m.recipients ==> QualifyingBusId(r).Some?)
    && NoDuplicates(m.recipients)
    && m.timestamp > 0
    && |m.body| <= MAX_SIGNED_BODY_LEN
  }

  /** What each refusal says about the message. */
  ghost predicate Violates(m: SignedMessage, why: Rejection) {
    match why
    case BadMessageId => forall b, n :: !IsMessageId(m.messageId, b, n)
    case SequenceUnset => m.sequence == 0
    case SequenceMismatch => exists b, n :: IsMessageId(m.messageId, b, n) && n != m.sequence
    case BadSender => QualifyingBusId(m.sender).None?
    case WrongOrigin => exists b, n :: IsMessageId(m.messageId, b, n) && QualifyingBusId(m.sender) != Some(b)
    case NoRecipients => m.recipients == []
    case TooManyRecipients => |m.recipients| > MAX_SIGNED_RECIPIENTS
    case BadRecipient => exists r :: r in m.recipients && QualifyingBusId(r).None?
    case DuplicateRecipient => !NoDuplicates(m.recipients)
    case BadTimestamp => m.timestamp <= 0
    case BodyTooLong => |m.body| > MAX_SIGNED_BODY_LEN
  }

  /** The order in which the faults are looked for. */
  function Turn(why: Rejection): nat {
    match why
    case BadMessageId => 0
    case SequenceUnset => 1
    case SequenceMismatch => 2
    case BadSender => 3
    case WrongOrigin => 4
    case NoRecipients => 5
    case TooManyRecipients => 6
    case BadRecipient => 7
    case DuplicateRecipient => 8
    case BadTimestamp => 9
    case BodyTooLong => 10
  }

  /** The fault is there, and it is the first one. */
  ghost predicate FirstFault(m: SignedMessage, why: Rejection) {
    Violates(m, why) && forall w :: Turn(w) < Turn(why) ==> !Violates(m, w)
  }

  /** An id that parses to the message's own number, from the sender's own bus, has none of the first five faults. */
  lemma IdIsSound(m: SignedMessage, bus: string)
    requires IsMessageId(m.messageId, bus, m.sequence) && m.sequence != 0
    ensures forall w :: Turn(w) < 3 ==> !Violates(m, w)
    ensures QualifyingBusId(m.sender) == Some(bus) ==> forall w :: Turn(w) < 5 ==> !Violates(m, w)
  {
    forall b, n | IsMessageId(m.messageId, b, n) ensures b == bus && n == m.sequence {
      MessageIdUnique(m.messageId, b, n, bus, m.sequence);
    }
  }

  lemma ViolationIsNotAccepted(m: SignedMessage, why: Rejection)
    requires Violates(m, why)
    ensures !Accepted(m)
  {
    if Accepted(m) {
      var bus := QualifyingBusId(m.sender).value;
      forall b, n | IsMessageId(m.messageId, b, n) ensures b == bus && n == m.sequence {
        MessageIdUnique(m.messageId, b, n, bus, m.sequence);
      }
    }
  }

  function TwosComplement(n: Int64): nat {
    if n >= 0 then n else n + UINT64_LIMIT
  }

  // The layout, nested to the right so that it reads as a stream.
  function TimeAndBody(m: SignedMessage): string {
    Bytes8(TwosComplement(m.timestamp)) + LenPrefixed(m.body)
  }

  function Audience(m: SignedMessage): string {
    Bytes4(|m.recipients|) + (LenPrefixedAll(Sorted(m.recipients)) + TimeAndBody(m))
  }

  function Identity(m: SignedMessage): string {
    LenPrefixed(m.messageId) + (Bytes8(m.sequence) + (LenPrefixed(m.sender) + Audience(m)))
  }

  function CanonicalBytes(m: SignedMessage): string {
    LenPrefixed(MESSAGE_SIGNING_CONTEXT) + Identity(m)
  }

  /** Equality as a reader of the signature sees it: the audience is a set. */
  ghost predicate SameMessage(m: SignedMessage, m': SignedMessage) {
    && m.messageId == m'.messageId
    && m.sequence == m'.sequence
    && m.sender == m'.sender
    && Elements(m.recipients) == Elements(m'.recipients)
    && m.timestamp == m'.timestamp
    && m.body == m'.body
  }

  lemma AcceptedFits(m: SignedMessage)
    requires Accepted(m)
    ensures |m.messageId| < UINT32_LIMIT && |m.sender| < UINT32_LIMIT && |m.body| < UINT32_LIMIT
    ensures AllFit(Sorted(m.recipients)) && |Sorted(m.recipients)| == |m.recipients| < UINT32_LIMIT
  {
    MessageIdShape(m.messageId, QualifyingBusId(m.sender).value, m.sequence);
    SortedSpec(m.recipients);
    forall i | 0 <= i < |Sorted(m.recipients)| ensures |Sorted(m.recipients)[i]| < UINT32_LIMIT {
      assert Sorted(m.recipients)[i] in multiset(m.recipients);
      assert QualifyingBusId(Sorted(m.recipients)[i]).Some?;
    }
  }

  lemma SameAudience(m: SignedMessage, m': SignedMessage)
    requires NoDuplicates(m.recipients) && NoDuplicates(m'.recipients)
    ensures Sorted(m.recipients) == Sorted(m'.recipients) <==> Elements(m.recipients) == Elements(m'.recipients)
  {
    SortedSpec(m.recipients);
    SortedSpec(m'.recipients);
    if Sorted(m.recipients) == Sorted(m'.recipients) {
      assert multiset(m.recipients) == multiset(m'.recipients);
      forall x ensures x in m.recipients <==> x in m'.recipients {
        assert x in m.recipients <==> x in multiset(m.recipients);
        assert x in m'.recipients <==> x in multiset(m'.recipients);
      }
    }
    if Elements(m.recipients) == Elements(m'.recipients) {
      DistinctSameMultiset(m.recipients, m'.recipients);
      SortedOfPermutation(m.recipients, m'.recipients);
    }
  }

  lemma StreamDeterminesFields(m: SignedMessage, m': SignedMessage)
    requires Accepted(m) && Accepted(m')
    requires CanonicalBytes(m) == CanonicalBytes(m')
    ensures m.(recipients := []) == m'.(recipients := [])
    ensures Sorted(m.recipients) == Sorted(m'.recipients)
  {
    Widths();
    AcceptedFits(m);
    AcceptedFits(m');
    FieldSplit(MESSAGE_SIGNING_CONTEXT, Identity(m), MESSAGE_SIGNING_CONTEXT, Identity(m'));
    var s, s' := LenPrefixed(m.sender) + Audience(m), LenPrefixed(m'.sender) + Audience(m');
    FieldSplit(m.messageId, Bytes8(m.sequence) + s, m'.messageId, Bytes8(m'.sequence) + s');
    IntegerSplit(8, m.sequence, s, m'.sequence, s');
    FieldSplit(m.sender, Audience(m), m'.sender, Audience(m'));
    AudienceDeterminesFields(m, m');
  }

  lemma AudienceDeterminesFields(m: SignedMessage, m': SignedMessage)
    requires Accepted(m) && Accepted(m')
    requires Audience(m) == Audience(m')
    ensures Sorted(m.recipients) == Sorted(m'.recipients) && m.timestamp == m'.timestamp && m.body == m'.body
  {
    Widths();
    AcceptedFits(m);
    AcceptedFits(m');
    var list, list' := LenPrefixedAll(Sorted(m.recipients)), LenPrefixedAll(Sorted(m'.recipients));
    IntegerSplit(4, |m.recipients|, list + TimeAndBody(m), |m'.recipients|, list' + TimeAndBody(m'));
    ListSplit(Sorted(m.recipients), TimeAndBody(m), Sorted(m'.recipients), TimeAndBody(m'));
    IntegerSplit(8, m.timestamp, LenPrefixed(m.body), m'.timestamp, LenPrefixed(m'.body));
    assert LenPrefixed(m.body) + "" == LenPrefixed(m'.body) + "";
    FieldSplit(m.body, "", m'.body, "");
  }

  /** Equal bytes mean the same message, and the same message has equal bytes. */
  lemma CanonicalInjective(m: SignedMessage, m': SignedMessage)
    requires Accepted(m) && Accepted(m')
    ensures CanonicalBytes(m) == CanonicalBytes(m') <==> SameMessage(m, m')
  {
    SameAudience(m, m');
    if CanonicalBytes(m) == CanonicalBytes(m') {
      StreamDeterminesFields(m, m');
    }
    if SameMessage(m, m') {
      SortedSpec(m.recipients);
      SortedSpec(m'.recipients);
    }
  }

  /** Any rearrangement of the audience is accepted or refused alike, and signs the same bytes. */
  lemma RecipientOrderIrrelevant(m: SignedMessage, order: seq<string>)
    requires multiset(order) == multiset(m.recipients)
    ensures Accepted(m.(recipients := order)) <==> Accepted(m)
    ensures CanonicalBytes(m.(recipients := order)) == CanonicalBytes(m)
  {
    SortedOfPermutation(order, m.recipients);
    assert |order| == |multiset(order)| == |m.recipients|;
    if Accepted(m) {
      PermutationKeepsDistinct(m.recipients, order);
      forall r | r in order ensures r in m.recipients { assert r in multiset(order); }
    }
    if Accepted(m.(recipients := order)) {
      PermutationKeepsDistinct(order, m.recipients);
      forall r | r in m.recipients ensures r in order { assert r in multiset(m.recipients); }
    }
  }

  // ----- The encoder --------------------------------------------------------

  method AllQualified(recipients: array<string>) returns (ok: bool)
    ensures ok <==> forall x :: x in recipients[..] ==> QualifyingBusId(x).Some?
  {
    for i := 0 to recipients.Length
      invariant forall k :: 0 <= k < i ==> QualifyingBusId(recipients[k]).Some?
    {
      if QualifyingBusId(recipients[i]).None? {
        assert recipients[i] in recipients[..];
        return false;
      }
    }
    return true;
  }

  /** A sorted slice holds no duplicate exactly when no two neighbours are equal. */
  method NoEqualNeighbours(sorted: array<string>) returns (ok: bool)
    requires Ascending(sorted[..])
    ensures ok <==> NoDuplicates(sorted[..])
  {
    var i := 1;
    while i < sorted.Length
      invariant i >= 1 && forall k :: 1 <= k < i && k < sorted.Length ==> sorted[k] != sorted[k - 1]
    {
      if sorted[i] == sorted[i - 1] {
        assert sorted[..][i] == sorted[..][i - 1];
        return false;
      }
      i := i + 1;
    }
    NeighboursDistinct(sorted[..]);
    return true;
  }

  /** Checks every recipient, then sorts a copy and compares neighbours. */
  method ValidateRecipients(recipients: array<string>) returns (r: Result<seq<string>, Rejection>)
    ensures r.Ok? ==>
              && 1 <= recipients.Length <= MAX_SIGNED_RECIPIENTS
              && (forall x :: x in recipients[..] ==> QualifyingBusId(x).Some?)
              && NoDuplicates(recipients[..])
              && r.value == Sorted(recipients[..])
    ensures r.Err? ==>
              match r.error
              case NoRecipients => recipients.Length == 0
              case TooManyRecipients => recipients.Length > MAX_SIGNED_RECIPIENTS
              case BadRecipient =>
                1 <= recipients.Length <= MAX_SIGNED_RECIPIENTS && exists x :: x in recipients[..] && QualifyingBusId(x).None?
              case DuplicateRecipient =>
                && 1 <= recipients.Length <= MAX_SIGNED_RECIPIENTS
                && (forall x :: x in recipients[..] ==> QualifyingBusId(x).Some?)
                && !NoDuplicates(recipients[..])
              case _ => false
  {
    if recipients.Length == 0 { return Err(NoRecipients); }
    if recipients.Length > MAX_SIGNED_RECIPIENTS { return Err(TooManyRecipients); }
    var qualified := AllQualified(recipients);
    if !qualified { return Err(BadRecipient); }
    var copied := new string[recipients.Length](i requires 0 <= i < recipients.Length reads recipients => recipients[i]);
    assert copied[..] == recipients[..];
    SortInPlace(copied);
    SortedSpec(recipients[..]);
    var distinct := NoEqualNeighbours(copied);
    SameDuplicates(recipients[..], copied[..]);
    return if distinct then Ok(copied[..]) else Err(DuplicateRecipient);
  }

  lemma SameDuplicates(s: seq<string>, t: seq<string>)
    requires multiset(s) == multiset(t)
    ensures NoDuplicates(s) <==> NoDuplicates(t)
  {
    if NoDuplicates(s) { PermutationKeepsDistinct(s, t); }
    if NoDuplicates(t) { PermutationKeepsDistinct(t, s); }
  }

  /** Appending the fields one after the other produces the stream. */
  lemma AppendedFields(m: SignedMessage, list: string)
    requires list == LenPrefixedAll(Sorted(m.recipients))
    ensures LenPrefixed(MESSAGE_SIGNING_CONTEXT) + LenPrefixed(m.messageId) + Bytes8(m.sequence)
            + LenPrefixed(m.sender) + Bytes4(|m.recipients|) + list + Bytes8(TwosComplement(m.timestamp))
            + LenPrefixed(m.body)
            == CanonicalBytes(m)
  {
    var h1 := LenPrefixed(MESSAGE_SIGNING_CONTEXT);
    var h2 := h1 + LenPrefixed(m.messageId);
    var h3 := h2 + Bytes8(m.sequence);
    var h4 := h3 + LenPrefixed(m.sender);
    var h5 := h4 + Bytes4(|m.recipients|);
    Regroup(h5 + list, Bytes8(TwosComplement(m.timestamp)), LenPrefixed(m.body));
    Regroup(h5, list, TimeAndBody(m));
    Regroup(h4, Bytes4(|m.recipients|), list + TimeAndBody(m));
    Regroup(h3, LenPrefixed(m.sender), Audience(m));
    Regroup(h2, Bytes8(m.sequence), LenPrefixed(m.sender) + Audience(m));
    Regroup(h1, LenPrefixed(m.messageId), Bytes8(m.sequence) + (LenPrefixed(m.sender) + Audience(m)));
  }

  method AppendAll(dst: string, fields: seq<string>) returns (out: string)
    ensures out == dst + LenPrefixedAll(fields)
  {
    out := dst;
    for i := 0 to |fields|
      invariant out == dst + LenPrefixedAll(fields[..i])
    {
      assert fields[..i + 1][..i] == fields[..i];
      out := out + LenPrefixed(fields[i]);
    }
    assert fields[..|fields|] == fields;
  }

  /** The canonical bytes of an acceptable message, or no bytes at all. The caller's slice is only read. */
  method Canonicalize(messageId: string, sequence: Uint64, sender: string, recipients: array<string>,
                      timestamp: Int64, body: string)
    returns (r: Result<string, Rejection>)
    ensures var m := SignedMessage(messageId, sequence, sender, recipients[..], timestamp, body);
            match r
            case Ok(bytes) => Accepted(m) && bytes == CanonicalBytes(m)
            case Err(why) => !Accepted(m) && FirstFault(m, why)
  {
    ghost var m := SignedMessage(messageId, sequence, sender, recipients[..], timestamp, body);
    var sorted := Validate(messageId, sequence, sender, recipients, timestamp, body);
    if sorted.Err? {
      ViolationIsNotAccepted(m, sorted.error);
      return Err(sorted.error);
    }
    SortedSpec(recipients[..]);
    var out := LenPrefixed(MESSAGE_SIGNING_CONTEXT);
    out := out + LenPrefixed(messageId);
    out := out + Bytes8(sequence);
    out := out + LenPrefixed(sender);
    out := out + Bytes4(|sorted.value|);
    out := AppendAll(out, sorted.value);
    out := out + Bytes8(TwosComplement(timestamp));
    out := out + LenPrefixed(body);
    AppendedFields(m, LenPrefixedAll(sorted.value));
    return Ok(out);
  }

  /** Every check of the format, in the source's order; success carries the sorted audience. */
  method Validate(messageId: string, sequence: Uint64, sender: string, recipients: array<string>,
                  timestamp: Int64, body: string)
    returns (r: Result<seq<string>, Rejection>)
    ensures var m := SignedMessage(messageId, sequence, sender, recipients[..], timestamp, body);
            match r
            case Ok(sorted) => Accepted(m) && sorted == Sorted(m.recipients)
            case Err(why) => FirstFault(m, why)
  {
    ghost var m := SignedMessage(messageId, sequence, sender, recipients[..], timestamp, body);
    var parsed := ParseSignedMessageId(messageId);
    if parsed.None? { return Err(BadMessageId); }
    if sequence == 0 { return Err(SequenceUnset); }
    if sequence != parsed.value.1 { return Err(SequenceMismatch); }
    IdIsSound(m, parsed.value.0);
    var senderBus := QualifyingBusId(sender);
    if senderBus.None? { return Err(BadSender); }
    if senderBus.value != parsed.value.0 { return Err(WrongOrigin); }
    var sorted := ValidateRecipients(recipients);
    if sorted.Err? { return Err(sorted.error); }
    if timestamp <= 0 { return Err(BadTimestamp); }
    if |body| > MAX_SIGNED_BODY_LEN { return Err(BodyTooLong); }
    return sorted;
  }
}
