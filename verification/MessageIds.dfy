/**
 Message ids `<bus-id>-<seq>` and qualified agent ids `<bus-id>.<agent-id>`.

 The parser is strict: an id has exactly one spelling. `IsMessageId` states that
 spelling as a printer would produce it, and the parser is proved to accept
 exactly the printed ids, although a bus id may itself contain '-'.
 */
module MessageIds {
  import opened Common
  import opened Framing

  const MAX_MESSAGE_ID_LEN := 64 + 1 + 20

  predicate IsDigit(c: char) { '0' <= c <= '9' }

  predicate IsBusIdChar(c: char) {
    'A' <= c <= 'Z' || 'a' <= c <= 'z' || IsDigit(c) || c == '_' || c == '-'
  }

  predicate IsServerIdChar(c: char) { IsBusIdChar(c) || c == '.' }

  /** The pattern `^[A-Za-z0-9_-]{1,64}$`. */
  predicate LegalBusId(s: string) {
    1 <= |s| <= 64 && forall i :: 0 <= i < |s| ==> IsBusIdChar(s[i])
  }

  /** The pattern `^[A-Za-z0-9._-]{1,256}$`. */
  predicate LegalServerId(s: string) {
    1 <= |s| <= 256 && forall i :: 0 <= i < |s| ==> IsServerIdChar(s[i])
  }

  /** The pattern `^[A-Za-z0-9._-]{1,128}$`. */
  predicate LegalIdempotencyKey(key: string) {
    1 <= |key| <= 128 && forall i :: 0 <= i < |key| ==> IsServerIdChar(key[i])
  }

  predicate AllDigits(s: string) {
    forall i :: 0 <= i < |s| ==> IsDigit(s[i])
  }

  // ----- Decimal numerals ---------------------------------------------------

  function Decimal(n: nat): string {
    if n < 10 then ['0' + n as char] else Decimal(n / 10) + ['0' + (n % 10) as char]
  }

  function Value(s: string): nat
    requires AllDigits(s)
  {
    if s == "" then 0 else 10 * Value(s[..|s| - 1]) + (s[|s| - 1] - '0') as int
  }

  predicate Minimal(s: string) {
    s != "" && AllDigits(s) && (|s| > 1 ==> s[0] != '0')
  }

  lemma {:induction false} DecimalIsMinimal(n: nat)
    ensures Minimal(Decimal(n)) && Value(Decimal(n)) == n
    ensures n > 0 ==> Decimal(n)[0] != '0'
  {
    if n >= 10 {
      DecimalIsMinimal(n / 10);
      assert Decimal(n)[..|Decimal(n)| - 1] == Decimal(n / 10);
    }
  }

  lemma {:induction false} MinimalIsDecimal(s: string)
    requires Minimal(s)
    ensures Decimal(Value(s)) == s
    ensures s[0] != '0' ==> Value(s) > 0
  {
    var init, d := s[..|s| - 1], (s[|s| - 1] - '0') as int;
    assert s == init + [s[|s| - 1]];
    if init == "" {
      assert Value(s) == d;
    } else {
      MinimalIsDecimal(init);
      assert Value(s) == 10 * Value(init) + d && Value(s) / 10 == Value(init) && Value(s) % 10 == d;
    }
  }

  function Pow10(k: nat): nat { if k == 0 then 1 else 10 * Pow10(k - 1) }

  lemma {:induction false} DecimalLength(n: nat, k: nat)
    requires k > 0 && n < Pow10(k)
    ensures |Decimal(n)| <= k
  {
    if n >= 10 {
      assert Pow10(1) == 10;
      DecimalLength(n / 10, k - 1);
    }
  }

  lemma Uint64HasTwentyDigits()
    ensures UINT64_LIMIT <= Pow10(20)
  {
    assert Pow10(4) == 10_000;
    assert Pow10(8) == 10_000 * Pow10(4);
    assert Pow10(12) == 10_000 * Pow10(8);
    assert Pow10(16) == 10_000 * Pow10(12);
    assert Pow10(20) == 10_000 * Pow10(16);
  }

  lemma {:induction false} ValuePrefix(s: string, k: nat)
    requires AllDigits(s) && k <= |s|
    ensures Value(s[..k]) <= Value(s)
  {
    if k < |s| {
      ValuePrefix(s[..|s| - 1], k);
      assert s[..|s| - 1][..k] == s[..k];
    } else {
      assert s[..k] == s;
    }
  }

  /** `strconv.ParseUint(s, 10, 64)` on digits: the value, or a range error. */
  method ParseUint64(s: string) returns (r: Option<nat>)
    requires AllDigits(s)
    ensures r == if Value(s) < UINT64_LIMIT then Some(Value(s)) else None
  {
    var v := 0;
    for i := 0 to |s|
      invariant v == Value(s[..i]) && v < UINT64_LIMIT
    {
      v := 10 * v + (s[i] - '0') as int;
      assert s[..i + 1][..i] == s[..i];
      if v >= UINT64_LIMIT {
        ValuePrefix(s, i + 1);
        return None;
      }
    }
    assert s[..|s|] == s;
    return Some(v);
  }

  // ----- Message ids --------------------------------------------------------

  /** `id` is the one spelling of the `n`th id minted by `bus`. */
  predicate IsMessageId(id: string, bus: string, n: nat) {
    LegalBusId(bus) && 1 <= n < UINT64_LIMIT && id == bus + "-" + Decimal(n)
  }

  lemma MessageIdShape(id: string, bus: string, n: nat)
    requires IsMessageId(id, bus, n)
    ensures |bus| < |id| <= MAX_MESSAGE_ID_LEN
    ensures id[..|bus|] == bus && id[|bus|] == '-' && id[|bus| + 1..] == Decimal(n)
    ensures forall j :: |bus| < j < |id| ==> id[j] != '-'
  {
    DecimalIsMinimal(n);
    Uint64HasTwentyDigits();
    DecimalLength(n, 20);
    assert forall j :: |bus| < j < |id| ==> id[j] == Decimal(n)[j - |bus| - 1];
  }

  /** The two halves are determined by the text, wherever the bus id's own dashes fall. */
  lemma MessageIdUnique(id: string, bus: string, n: nat, bus': string, n': nat)
    requires IsMessageId(id, bus, n) && IsMessageId(id, bus', n')
    ensures bus == bus' && n == n'
  {
    MessageIdShape(id, bus, n);
    MessageIdShape(id, bus', n');
    DecimalIsMinimal(n);
    DecimalIsMinimal(n');
  }

  /** `strings.LastIndex(s, "-")`. */
  method LastDash(s: string) returns (i: int)
    ensures -1 <= i < |s|
    ensures i >= 0 ==> s[i] == '-'
    ensures forall j :: i < j < |s| ==> s[j] != '-'
  {
    i := |s| - 1;
    while i >= 0 && s[i] != '-'
      invariant -1 <= i < |s|
      invariant forall j :: i < j < |s| ==> s[j] != '-'
    {
      i := i - 1;
    }
  }

  lemma NotAnId(id: string, i: nat)
    requires i < |id| && id[i] == '-' && forall j :: i < j < |id| ==> id[j] != '-'
    requires !LegalBusId(id[..i]) || !Minimal(id[i + 1..]) || !(1 <= Value(id[i + 1..]) < UINT64_LIMIT)
    ensures forall b, n :: !IsMessageId(id, b, n)
  {
    forall b, n | IsMessageId(id, b, n) ensures false {
      MessageIdShape(id, b, n);
      DecimalIsMinimal(n);
    }
  }

  /** Accepts exactly the printed ids, and returns what was printed. */
  method ParseSignedMessageId(id: string) returns (r: Option<(string, nat)>)
    ensures r.Some? ==> IsMessageId(id, r.value.0, r.value.1)
    ensures r.None? ==> forall b, n :: !IsMessageId(id, b, n)
  {
    if |id| > MAX_MESSAGE_ID_LEN {
      forall b, n | IsMessageId(id, b, n) ensures false { MessageIdShape(id, b, n); }
      return None;
    }
    var i := LastDash(id);
    if i < 0 {
      forall b, n | IsMessageId(id, b, n) ensures false { MessageIdShape(id, b, n); }
      return None;
    }
    var busId, seqPart := id[..i], id[i + 1..];
    if !LegalBusId(busId) || seqPart == "" {
      NotAnId(id, i);
      return None;
    }
    for j := 0 to |seqPart|
      invariant forall k :: 0 <= k < j ==> IsDigit(seqPart[k])
    {
      if !IsDigit(seqPart[j]) {
        NotAnId(id, i);
        return None;
      }
    }
    if |seqPart| > 1 && seqPart[0] == '0' {
      NotAnId(id, i);
      return None;
    }
    var n := ParseUint64(seqPart);
    if n.None? || n.value == 0 {
      NotAnId(id, i);
      return None;
    }
    MinimalIsDecimal(seqPart);
    assert id == busId + "-" + seqPart;
    return Some((busId, n.value));
  }

  // ----- Qualified agent ids ------------------------------------------------

  /** `id` is `bus`, a dot and a non-empty agent half, within the server's alphabet. */
  ghost predicate QualifiedOn(id: string, bus: string) {
    LegalServerId(id) && LegalBusId(bus) && |bus| + 1 < |id| && id[..|bus|] == bus && id[|bus|] == '.'
  }

  /** `strings.Index(s, ".")`, or the length when there is no dot. */
  function FirstDot(s: string): (i: nat)
    ensures i <= |s|
    ensures i < |s| ==> s[i] == '.'
    ensures forall j :: 0 <= j < i ==> s[j] != '.'
  {
    if s == "" || s[0] == '.' then 0 else 1 + FirstDot(s[1..])
  }

  function SplitQualifiedId(id: string): Option<(string, string)> {
    var i := FirstDot(id);
    if i == |id| || i == 0 || i == |id| - 1 then None else Some((id[..i], id[i + 1..]))
  }

  /** The bus half of a qualified agent id; a bus id holds no dot, so it is unique. */
  function QualifyingBusId(id: string): (r: Option<string>)
    ensures forall bus :: QualifiedOn(id, bus) <==> r == Some(bus)
  {
    if !LegalServerId(id) then None else
    match SplitQualifiedId(id)
    case None =>
      assert forall bus :: QualifiedOn(id, bus) ==> FirstDot(id) == |bus|;
      None
    case Some((busId, agentPart)) =>
      assert forall bus :: QualifiedOn(id, bus) ==> FirstDot(id) == |bus|;
      if LegalBusId(busId) then Some(busId) else None
  }
}
