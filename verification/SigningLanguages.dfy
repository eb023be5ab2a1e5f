/**
 The four byte languages one agent's keys sign: messages, acknowledgements,
 session challenges and client-certificate bootstraps.

 A signature over one artefact must never be readable as a signature over
 another, so the languages are pairwise disjoint, and each byte sequence
 determines the artefact it was made from.
 */
module SigningLanguages {
  import opened Common
  import opened Framing
  import opened MessageIds
  import opened Canonical
  import opened Fingerprints

  const ACK_SIGNING_CONTEXT := "agent-bus/recipient-ack/3"
  const SESSION_SIGNING_CONTEXT := "agent-bus:session-token:v1:"
  const BOOTSTRAP_SIGNING_CONTEXT := "agent-bus:client-cert-bootstrap:v1:"
  const MAX_CHALLENGE_TOKEN_LEN := 512

  const ACK_DELIVERED := "delivered"
  const ACK_REFUSED := "refused"
  const REFUSAL_CLASSES: set<string> :=
    {"recipient_refused_policy", "recipient_refused_undecodable", "recipient_refused_not_addressed"}

  datatype AckSigned = AckSigned(
    correlationKey: string,
    recipient: string,
    outcome: string,
    refusalClass: string,
    emittedAt: Int64)

  /** A recipient signs one of two outcomes, and explains exactly the refusals. */
  ghost predicate AckAccepted(a: AckSigned) {
    && (exists b, n :: IsMessageId(a.correlationKey, b, n))
    && QualifyingBusId(a.recipient).Some?
    && (a.outcome == ACK_DELIVERED ==> a.refusalClass == "")
    && (a.outcome != ACK_DELIVERED ==> a.outcome == ACK_REFUSED && a.refusalClass in REFUSAL_CLASSES)
    && a.emittedAt > 0
  }

  function AckBytes(a: AckSigned): string {
    LenPrefixed(ACK_SIGNING_CONTEXT)
    + (LenPrefixed(a.correlationKey)
       + (LenPrefixed(a.recipient)
          + (LenPrefixed(a.outcome)
             + (LenPrefixed(a.refusalClass)
                + Bytes8(TwosComplement(a.emittedAt))))))
  }

  /** Appending the fields one after the other produces the stream. */
  lemma AppendedAck(a: AckSigned)
    ensures LenPrefixed(ACK_SIGNING_CONTEXT) + LenPrefixed(a.correlationKey) + LenPrefixed(a.recipient)
            + LenPrefixed(a.outcome) + LenPrefixed(a.refusalClass) + Bytes8(TwosComplement(a.emittedAt))
            == AckBytes(a)
  {
    var h1 := LenPrefixed(ACK_SIGNING_CONTEXT);
    var h2 := h1 + LenPrefixed(a.correlationKey);
    var h3 := h2 + LenPrefixed(a.recipient);
    var last := Bytes8(TwosComplement(a.emittedAt));
    var t4 := LenPrefixed(a.refusalClass) + last;
    var t3 := LenPrefixed(a.outcome) + t4;
    Regroup(h3 + LenPrefixed(a.outcome), LenPrefixed(a.refusalClass), last);
    Regroup(h3, LenPrefixed(a.outcome), t4);
    Regroup(h2, LenPrefixed(a.recipient), t3);
    Regroup(h1, LenPrefixed(a.correlationKey), LenPrefixed(a.recipient) + t3);
  }

  /** Where each field stands: behind the one before it, each with its length, and the time at the end. */
  lemma AckFieldsStand(a: AckSigned)
    ensures var bytes := AckBytes(a);
            var key := 4 + |ACK_SIGNING_CONTEXT|;
            var recipient := key + 4 + |a.correlationKey|;
            var outcome := recipient + 4 + |a.recipient|;
            var refusal := outcome + 4 + |a.outcome|;
            var time := refusal + 4 + |a.refusalClass|;
            && |bytes| == time + 8
            && bytes[..key] == LenPrefixed(ACK_SIGNING_CONTEXT)
            && bytes[key..recipient] == LenPrefixed(a.correlationKey)
            && bytes[recipient..outcome] == LenPrefixed(a.recipient)
            && bytes[outcome..refusal] == LenPrefixed(a.outcome)
            && bytes[refusal..time] == LenPrefixed(a.refusalClass)
            && bytes[time..] == Bytes8(TwosComplement(a.emittedAt))
  {
    var bytes, t5 := AckBytes(a), Bytes8(TwosComplement(a.emittedAt));
    var t4 := LenPrefixed(a.refusalClass) + t5;
    var t3 := LenPrefixed(a.outcome) + t4;
    var t2 := LenPrefixed(a.recipient) + t3;
    var t1 := LenPrefixed(a.correlationKey) + t2;
    var at := 0;
    at := FieldStands(bytes, at, ACK_SIGNING_CONTEXT, t1);
    at := FieldStands(bytes, at, a.correlationKey, t2);
    at := FieldStands(bytes, at, a.recipient, t3);
    at := FieldStands(bytes, at, a.outcome, t4);
    at := FieldStands(bytes, at, a.refusalClass, t5);
  }

  lemma FieldStands(bytes: string, at: nat, field: string, tail: string) returns (next: nat)
    requires at <= |bytes| && bytes[at..] == LenPrefixed(field) + tail
    ensures next == at + 4 + |field| <= |bytes|
    ensures bytes[at..next] == LenPrefixed(field) && bytes[next..] == tail
  {
    next := at + 4 + |field|;
    var rest := bytes[at..];
    assert rest[..next - at] == LenPrefixed(field) && rest[next - at..] == tail;
    assert bytes[at..next] == rest[..next - at] && bytes[next..] == rest[next - at..];
  }

  method CanonicalizeAck(a: AckSigned) returns (r: Option<string>)
    ensures r == if AckAccepted(a) then Some(AckBytes(a)) else None
  {
    var parsed := ParseSignedMessageId(a.correlationKey);
    if parsed.None? { return None; }
    if QualifyingBusId(a.recipient).None? { return None; }
    if a.outcome == ACK_DELIVERED {
      if a.refusalClass != "" { return None; }
    } else if a.outcome == ACK_REFUSED {
      if a.refusalClass !in REFUSAL_CLASSES { return None; }
    } else {
      return None;
    }
    if a.emittedAt <= 0 { return None; }
    assert IsMessageId(a.correlationKey, parsed.value.0, parsed.value.1);
    var out := LenPrefixed(ACK_SIGNING_CONTEXT);
    out := out + LenPrefixed(a.correlationKey);
    out := out + LenPrefixed(a.recipient);
    out := out + LenPrefixed(a.outcome);
    out := out + LenPrefixed(a.refusalClass);
    out := out + Bytes8(TwosComplement(a.emittedAt));
    AppendedAck(a);
    return Some(out);
  }

  // ----- Session challenges and certificate bootstraps -----------------------

  predicate IsTokenChar(c: char) {
    'a' <= c <= 'z' || 'A' <= c <= 'Z' || IsDigit(c) || c == '-' || c == '_'
  }

  predicate LegalToken(token: string) {
    1 <= |token| <= MAX_CHALLENGE_TOKEN_LEN && forall i :: 0 <= i < |token| ==> IsTokenChar(token[i])
  }

  method ValidateChallengeToken(token: string) returns (ok: bool)
    ensures ok <==> LegalToken(token)
  {
    if token == "" || |token| > MAX_CHALLENGE_TOKEN_LEN { return false; }
    for i := 0 to |token|
      invariant forall k :: 0 <= k < i ==> IsTokenChar(token[k])
    {
      if !IsTokenChar(token[i]) { return false; }
    }
    return true;
  }

  function SessionBytes(token: string): string { SESSION_SIGNING_CONTEXT + token }

  function BootstrapBytes(token: string, key: string, fp: Fingerprint): string {
    BOOTSTRAP_SIGNING_CONTEXT + (token + ":" + (key + ":" + Hex(fp)))
  }

  /** The bytes as one text: the context, the token, the key and the fingerprint, the last two behind a colon. */
  lemma BootstrapText(token: string, key: string, fp: Fingerprint)
    ensures BootstrapBytes(token, key, fp) == BOOTSTRAP_SIGNING_CONTEXT + token + ":" + key + ":" + Hex(fp)
  {
    var c, h := BOOTSTRAP_SIGNING_CONTEXT, Hex(fp);
    Regroup(c + token + ":" + key, ":", h);
    Regroup(c + token + ":", key, ":" + h);
    Regroup(c + token, ":", key + (":" + h));
    Regroup(c, token, ":" + (key + (":" + h)));
    Regroup(key, ":", h);
    Regroup(token, ":", key + ":" + h);
  }

  // ----- All four -----------------------------------------------------------

  datatype Signed =
    | Message(m: SignedMessage)
    | Ack(a: AckSigned)
    | Session(token: string)
    | Bootstrap(sessionToken: string, key: string, fp: Fingerprint)

  ghost predicate Signable(x: Signed) {
    match x
    case Message(m) => Accepted(m)
    case Ack(a) => AckAccepted(a)
    case Session(token) => LegalToken(token)
    case Bootstrap(token, key, _) => LegalToken(token) && LegalIdempotencyKey(key)
  }

  function SignedBytes(x: Signed): string {
    match x
    case Message(m) => CanonicalBytes(m)
    case Ack(a) => AckBytes(a)
    case Session(token) => SessionBytes(token)
    case Bootstrap(token, key, fp) => BootstrapBytes(token, key, fp)
  }

  ghost predicate SameArtefact(x: Signed, y: Signed) {
    if x.Message? && y.Message? then SameMessage(x.m, y.m) else x == y
  }

  lemma LengthBytes()
    ensures Bytes4(|MESSAGE_SIGNING_CONTEXT|) == [0 as char, 0 as char, 0 as char, 19 as char]
    ensures Bytes4(|ACK_SIGNING_CONTEXT|) == [0 as char, 0 as char, 0 as char, 25 as char]
  {
    assert |MESSAGE_SIGNING_CONTEXT| == 19 && |ACK_SIGNING_CONTEXT| == 25;
    assert BigEndian(3, 0) == BigEndian(2, 0) + [0 as char];
    assert BigEndian(1, 0) == BigEndian(0, 0) + [0 as char];
  }

  /** Which language a byte sequence is in, read off two of its bytes. */
  lemma Tagged(x: Signed)
    ensures |SignedBytes(x)| > 10
    ensures x.Message? ==> SignedBytes(x)[0] == 0 as char && SignedBytes(x)[3] == 19 as char
    ensures x.Ack? ==> SignedBytes(x)[0] == 0 as char && SignedBytes(x)[3] == 25 as char
    ensures x.Session? ==> SignedBytes(x)[0] == 'a' && SignedBytes(x)[10] == 's'
    ensures x.Bootstrap? ==> SignedBytes(x)[0] == 'a' && SignedBytes(x)[10] == 'c'
  {
    LengthBytes();
    assert SESSION_SIGNING_CONTEXT[10] == 's' && BOOTSTRAP_SIGNING_CONTEXT[10] == 'c';
    match x
    case Message(m) =>
      assert CanonicalBytes(m) == Bytes4(|MESSAGE_SIGNING_CONTEXT|) + (MESSAGE_SIGNING_CONTEXT + Identity(m));
    case Ack(a) =>
      assert AckBytes(a)[..4] == Bytes4(|ACK_SIGNING_CONTEXT|);
    case Session(_) =>
    case Bootstrap(_, _, _) =>
  }

  lemma AckInjective(a: AckSigned, b: AckSigned)
    requires AckAccepted(a) && AckAccepted(b) && AckBytes(a) == AckBytes(b)
    ensures a == b
  {
    Widths();
    var bus, n :| IsMessageId(a.correlationKey, bus, n);
    MessageIdShape(a.correlationKey, bus, n);
    var bus', n' :| IsMessageId(b.correlationKey, bus', n');
    MessageIdShape(b.correlationKey, bus', n');
    var a1, b1 := Bytes8(TwosComplement(a.emittedAt)), Bytes8(TwosComplement(b.emittedAt));
    var a2, b2 := LenPrefixed(a.refusalClass) + a1, LenPrefixed(b.refusalClass) + b1;
    var a3, b3 := LenPrefixed(a.outcome) + a2, LenPrefixed(b.outcome) + b2;
    var a4, b4 := LenPrefixed(a.recipient) + a3, LenPrefixed(b.recipient) + b3;
    FieldSplit(ACK_SIGNING_CONTEXT, LenPrefixed(a.correlationKey) + a4, ACK_SIGNING_CONTEXT, LenPrefixed(b.correlationKey) + b4);
    FieldSplit(a.correlationKey, a4, b.correlationKey, b4);
    FieldSplit(a.recipient, a3, b.recipient, b3);
    FieldSplit(a.outcome, a2, b.outcome, b2);
    FieldSplit(a.refusalClass, a1, b.refusalClass, b1);
    BigEndianInjective(8, a.emittedAt, b.emittedAt);
  }

  /** A separator outside both alphabets ends a field of unknown length. */
  lemma ColonSplit(a: string, x: string, b: string, y: string)
    requires ':' !in a && ':' !in b
    requires a + ":" + x == b + ":" + y
    ensures a == b && x == y
  {
    var s := a + ":" + x;
    assert s[|a|] == ':' && s[|b|] == ':';
    assert forall i :: 0 <= i < |a| ==> s[i] == a[i];
    assert forall i :: 0 <= i < |b| ==> s[i] == b[i];
    assert a == s[..|a|] && b == s[..|b|] && x == s[|a| + 1..] && y == s[|b| + 1..];
  }

  lemma BootstrapInjective(t: string, k: string, f: Fingerprint, t': string, k': string, f': Fingerprint)
    requires LegalToken(t) && LegalToken(t') && LegalIdempotencyKey(k) && LegalIdempotencyKey(k')
    requires BootstrapBytes(t, k, f) == BootstrapBytes(t', k', f')
    ensures t == t' && k == k' && f == f'
  {
    var x, y := k + ":" + Hex(f), k' + ":" + Hex(f');
    SplitEqual(BOOTSTRAP_SIGNING_CONTEXT, t + ":" + x, BOOTSTRAP_SIGNING_CONTEXT, t' + ":" + y);
    ColonSplit(t, x, t', y);
    ColonSplit(k, Hex(f), k', Hex(f'));
    HexInjective(f, f');
  }

  /** One signature, one artefact: signed bytes are equal exactly when the artefacts are the same. */
  lemma SignedBytesDetermineArtefact(x: Signed, y: Signed)
    requires Signable(x) && Signable(y)
    ensures SignedBytes(x) == SignedBytes(y) <==> SameArtefact(x, y)
  {
    Tagged(x);
    Tagged(y);
    if x.Message? && y.Message? {
      CanonicalInjective(x.m, y.m);
    } else if SignedBytes(x) == SignedBytes(y) {
      match x
      case Ack(a) => AckInjective(a, y.a);
      case Session(t) => SplitEqual(SESSION_SIGNING_CONTEXT, t, SESSION_SIGNING_CONTEXT, y.token);
      case Bootstrap(t, k, f) => BootstrapInjective(t, k, f, y.sessionToken, y.key, y.fp);
    }
  }
}
