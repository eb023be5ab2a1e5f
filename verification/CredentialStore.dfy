/**
 The credential document and the locked updates of it.

 The first half is the document as a value, with one function per update. The
 second half is the store object: its methods loop over the lists the way the
 source does, and each is proved to produce the value the function names. Every
 update first prunes expired pending records, and an update that reports an error
 saves nothing.
 */
module CredentialStore {
  import opened Common
  import opened SortedStrings

  // 24 hours, in nanoseconds.
  const PENDING_TTL: int := 24 * 3600 * 1_000_000_000

  /** Key material of an enrolment whose outcome is not known yet. */
  datatype Pending = Pending(
    key: string,
    name: string,
    busUrl: string,
    authSeed: string,
    messagingSeed: string,     // "" in a record written before the field existed
    inviteId: string,          // "" when none was presented, or when the field did not exist
    createdAt: Option<int>)    // None: the timestamp does not parse

  datatype Credential = Credential(
    agentId: string,
    busId: string,
    name: string,
    busUrl: string,
    fingerprints: seq<string>,
    authSeed: string,
    messagingSeed: string,
    key: string)

  datatype Document = Document(current: string, credentials: seq<Credential>, pending: seq<Pending>)

  predicate PendingAt(p: Pending, key: string, busUrl: string) { p.key == key && p.busUrl == busUrl }

  predicate CredentialAt(c: Credential, key: string, busUrl: string) { c.key == key && c.busUrl == busUrl }

  predicate Expired(p: Pending, now: int) {
    p.createdAt.Some? && now - p.createdAt.value > PENDING_TTL
  }

  // ----- Reference functions ------------------------------------------------

  function RemovePending(pending: seq<Pending>, key: string, busUrl: string): (r: seq<Pending>)
    ensures forall p :: p in r <==> p in pending && !PendingAt(p, key, busUrl)
  {
    if pending == [] then [] else
    var rest := RemovePending(pending[..|pending| - 1], key, busUrl);
    var last := pending[|pending| - 1];
    assert pending == pending[..|pending| - 1] + [last];
    if PendingAt(last, key, busUrl) then rest else rest + [last]
  }

  function PrunePending(pending: seq<Pending>, now: int): (r: seq<Pending>)
    ensures forall p :: p in r <==>
              p in pending && (p.createdAt.None? || now <= p.createdAt.value + 24 * 3600 * 1_000_000_000)
  {
    if pending == [] then [] else
    var rest := PrunePending(pending[..|pending| - 1], now);
    var last := pending[|pending| - 1];
    assert pending == pending[..|pending| - 1] + [last];
    if Expired(last, now) then rest else rest + [last]
  }

  function FindPending(pending: seq<Pending>, key: string, busUrl: string): (r: Option<Pending>)
    ensures r.Some? ==> r.value in pending && PendingAt(r.value, key, busUrl)
    ensures r.None? ==> forall p :: p in pending ==> !PendingAt(p, key, busUrl)
  {
    if pending == [] then None
    else if PendingAt(pending[0], key, busUrl) then Some(pending[0])
    else FindPending(pending[1..], key, busUrl)
  }

  function FindApplied(creds: seq<Credential>, key: string, busUrl: string): (r: Option<Credential>)
    ensures r.Some? ==> r.value in creds && CredentialAt(r.value, key, busUrl)
    ensures r.None? ==> forall c :: c in creds ==> !CredentialAt(c, key, busUrl)
  {
    if creds == [] then None
    else if CredentialAt(creds[0], key, busUrl) then Some(creds[0])
    else FindApplied(creds[1..], key, busUrl)
  }

  /** The first credential with this agent id, or the length when there is none. */
  function FindCredential(creds: seq<Credential>, agentId: string): (i: nat)
    ensures i <= |creds|
    ensures i < |creds| ==> creds[i].agentId == agentId
    ensures forall j :: 0 <= j < i ==> creds[j].agentId != agentId
  {
    if creds == [] || creds[0].agentId == agentId then 0 else 1 + FindCredential(creds[1..], agentId)
  }

  datatype Claim =
    | AlreadyApplied(credential: Credential)
    | Resumed(record: Pending)
    | Fresh(record: Pending)
    | NameConflict
    | InviteConflict

  /** What an attempt under (key, bus) is, decided from the document alone. */
  function Decide(d: Document, want: Pending): Claim {
    match FindApplied(d.credentials, want.key, want.busUrl)
    case Some(c) => if c.name != want.name then NameConflict else AlreadyApplied(c)
    case None =>
      match FindPending(d.pending, want.key, want.busUrl)
      case Some(p) =>
        if p.name != want.name then NameConflict
        else if p.inviteId != "" && p.inviteId != want.inviteId then InviteConflict
        else Resumed(p)
      case None => Fresh(want)
  }

  /**
   Every outcome in terms of what is stored at (key, bus). A credential there comes before
   a record, and the name is compared before the invite.
   */
  lemma DecideMeaning(d: Document, want: Pending)
    ensures var claim, enrolled, started := Decide(d, want),
                (exists c :: c in d.credentials && CredentialAt(c, want.key, want.busUrl)),
                (exists p :: p in d.pending && PendingAt(p, want.key, want.busUrl));
            match claim
            case AlreadyApplied(c) => c in d.credentials && CredentialAt(c, want.key, want.busUrl) && c.name == want.name
            case Resumed(p) =>
              && !enrolled && p in d.pending && PendingAt(p, want.key, want.busUrl)
              && p.name == want.name && (p.inviteId == "" || p.inviteId == want.inviteId)
            case Fresh(p) => !enrolled && !started && p == want
            case NameConflict =>
              if enrolled then exists c :: c in d.credentials && CredentialAt(c, want.key, want.busUrl) && c.name != want.name
              else exists p :: p in d.pending && PendingAt(p, want.key, want.busUrl) && p.name != want.name
            case InviteConflict =>
              && !enrolled
              && exists p :: p in d.pending && PendingAt(p, want.key, want.busUrl)
                             && p.name == want.name && p.inviteId !in {"", want.inviteId}
  {
  }

  /** Whatever is filed at (key, bus) is the identity `id` under this name, and something is. */
  ghost predicate Filed(d: Document, key: string, busUrl: string, name: string, id: string) {
    && (exists c :: c in d.credentials && CredentialAt(c, key, busUrl))
    && forall c :: c in d.credentials && CredentialAt(c, key, busUrl) ==> c.agentId == id && c.name == name
  }

  /**
   An enrolment that is filed is answered from the store, whatever seeds and invite are
   offered, exactly when it is asked for under the filed name; under another one it conflicts.
   */
  lemma FiledIsApplied(d: Document, want: Pending, name: string, id: string)
    requires Filed(d, want.key, want.busUrl, name, id)
    ensures if want.name == name then Decide(d, want).AlreadyApplied? && Decide(d, want).credential.agentId == id
            else Decide(d, want).NameConflict?
  {
    DecideMeaning(d, want);
  }

  function Claimed(d: Document, want: Pending): Document {
    if Decide(d, want).Fresh? then d.(pending := d.pending + [want]) else d
  }

  function Promoted(d: Document, key: string, cred: Credential, makeCurrent: bool): Document {
    var i := FindCredential(d.credentials, cred.agentId);
    Document(
      if makeCurrent || d.current == "" then cred.agentId else d.current,
      if i < |d.credentials| then d.credentials[i := cred] else d.credentials + [cred],
      RemovePending(d.pending, key, cred.busUrl))
  }

  function Dropped(d: Document, key: string, busUrl: string): Document {
    d.(pending := RemovePending(d.pending, key, busUrl))
  }

  function Pruned(d: Document, now: int): Document {
    d.(pending := PrunePending(d.pending, now))
  }

  function LowestAgentId(creds: seq<Credential>): string {
    if creds == [] then "" else
    var rest, last := LowestAgentId(creds[..|creds| - 1]), creds[|creds| - 1].agentId;
    if rest == "" || (last != rest && Le(last, rest)) then last else rest
  }

  /** The document after credential `c` is logged out, together with its in-flight record. */
  function LoggedOut(d: Document, c: Credential): Document
    requires c in d.credentials
  {
    var i := FindCredential(d.credentials, c.agentId);
    var left := d.credentials[..i] + d.credentials[i + 1..];
    Document(
      if d.current == c.agentId then LowestAgentId(left) else d.current,
      left,
      RemovePending(d.pending, c.key, c.busUrl))
  }

  lemma {:induction false} LowestIsLowest(creds: seq<Credential>)
    requires forall c :: c in creds ==> c.agentId != ""
    ensures creds == [] <==> LowestAgentId(creds) == ""
    ensures creds != [] ==> exists c :: c in creds && c.agentId == LowestAgentId(creds)
    ensures forall c :: c in creds ==> Le(LowestAgentId(creds), c.agentId)
  {
    if creds != [] {
      var init, last := creds[..|creds| - 1], creds[|creds| - 1];
      LowestIsLowest(init);
      var low := LowestAgentId(creds);
      LeTotal(low, last.agentId);
      assert last in creds;
      if init != [] {
        var c0 :| c0 in init && c0.agentId == LowestAgentId(init);
        LeTotal(last.agentId, LowestAgentId(init));
        forall c | c in init ensures Le(low, c.agentId) {
          if low == last.agentId { LeTransitive(low, LowestAgentId(init), c.agentId); }
        }
      }
      forall c | c in creds ensures Le(low, c.agentId) { assert c in init || c == last; }
    }
  }

  lemma OneRemoved(creds: seq<Credential>, i: nat)
    requires i < |creds| && NoDuplicates(creds)
    ensures forall x :: x in creds[..i] + creds[i + 1..] <==> x in creds && x != creds[i]
  {
    assert creds == creds[..i] + [creds[i]] + creds[i + 1..];
  }

  /** Logout forgets that identity and any record that would bring it back, and nothing else. */
  lemma LogoutForgets(d: Document, c: Credential)
    requires c in d.credentials
    requires forall i, j :: 0 <= i < j < |d.credentials| ==> d.credentials[i].agentId != d.credentials[j].agentId
    requires forall x :: x in d.credentials ==> x.agentId != ""
    ensures var d' := LoggedOut(d, c);
            && (forall x :: x in d'.credentials <==> x in d.credentials && x != c)
            && (forall p :: p in d'.pending <==> p in d.pending && !PendingAt(p, c.key, c.busUrl))
            && (d.current != c.agentId ==> d'.current == d.current)
            && (d.current == c.agentId ==>
                  if d'.credentials == [] then d'.current == ""
                  else (exists x :: x in d'.credentials && x.agentId == d'.current)
                       && forall x :: x in d'.credentials ==> Le(d'.current, x.agentId))
  {
    var i := FindCredential(d.credentials, c.agentId);
    var j :| 0 <= j < |d.credentials| && d.credentials[j] == c;
    assert i == j;
    var left := d.credentials[..i] + d.credentials[i + 1..];
    OneRemoved(d.credentials, i);
    LowestIsLowest(left);
  }

  function NamedBy(creds: seq<Credential>, name: string): (r: seq<Credential>)
    ensures forall c :: c in r <==> c in creds && c.name == name
    ensures |r| <= |creds|
  {
    if creds == [] then [] else
    var rest := NamedBy(creds[..|creds| - 1], name);
    var last := creds[|creds| - 1];
    assert creds == creds[..|creds| - 1] + [last];
    if last.name == name then rest + [last] else rest
  }

  /** Which credential a reference means: the selection, an agent id, or a name only one identity has. */
  function Resolve(d: Document, ref: string): (r: Option<Credential>)
    ensures r.Some? ==> r.value in d.credentials
  {
    var i := FindCredential(d.credentials, if ref == "" then d.current else ref);
    if ref == "" && d.current == "" then None
    else if i < |d.credentials| then Some(d.credentials[i])
    else if ref == "" then None
    else
      var matches := NamedBy(d.credentials, ref);
      if |matches| == 1 then assert matches[0] in matches; Some(matches[0]) else None
  }

  lemma ResolveIgnoresPending(d: Document, pending: seq<Pending>, ref: string)
    ensures Resolve(d.(pending := pending), ref) == Resolve(d, ref)
  {
  }

  /** An identity that has a messaging seed keeps it. */
  function WithMessagingKey(c: Credential, seed: string): Credential {
    if c.messagingSeed == "" then c.(messagingSeed := seed) else c
  }

  function AgentIds(creds: seq<Credential>): (ids: seq<string>)
    ensures |ids| == |creds| && forall i :: 0 <= i < |creds| ==> ids[i] == creds[i].agentId
  {
    seq(|creds|, i requires 0 <= i < |creds| => creds[i].agentId)
  }

  /** An agent id wins over a name, and a name is never a guess between two identities. */
  lemma ResolveSpec(d: Document, ref: string)
    ensures var r := Resolve(d, ref);
            && (r.Some? && ref == "" ==> r.value.agentId == d.current != "")
            && (ref != "" && (exists c :: c in d.credentials && c.agentId == ref) ==> r.Some? && r.value.agentId == ref)
            && (r.Some? && ref != "" && r.value.agentId != ref ==>
                  r.value.name == ref && forall c :: c in d.credentials && c.name == ref ==> c == r.value)
  {
    var matches := NamedBy(d.credentials, ref);
    if |matches| == 1 {
      forall c | c in d.credentials && c.name == ref ensures c == matches[0] { assert c in matches; }
    }
  }

  // ----- The store ----------------------------------------------------------

  class Store {
    var current: string
    var credentials: seq<Credential>
    var pending: seq<Pending>

    function Doc(): Document
      reads this
    {
      Document(current, credentials, pending)
    }

    constructor ()
      ensures Doc() == Document("", [], [])
    {
      current, credentials, pending := "", [], [];
    }

    method Save(d: Document)
      modifies this
      ensures Doc() == d
    {
      current, credentials, pending := d.current, d.credentials, d.pending;
    }

    static method PruneList(pending: seq<Pending>, now: int) returns (out: seq<Pending>)
      ensures out == PrunePending(pending, now)
    {
      out := [];
      for i := 0 to |pending|
        invariant out == PrunePending(pending[..i], now)
      {
        assert pending[..i + 1][..i] == pending[..i];
        if !Expired(pending[i], now) { out := out + [pending[i]]; }
      }
      assert pending[..|pending|] == pending;
    }

    static method RemoveFromList(pending: seq<Pending>, key: string, busUrl: string) returns (out: seq<Pending>)
      ensures out == RemovePending(pending, key, busUrl)
    {
      out := [];
      for i := 0 to |pending|
        invariant out == RemovePending(pending[..i], key, busUrl)
      {
        assert pending[..i + 1][..i] == pending[..i];
        if !PendingAt(pending[i], key, busUrl) { out := out + [pending[i]]; }
      }
      assert pending[..|pending|] == pending;
    }

    static method IndexOf(creds: seq<Credential>, agentId: string) returns (i: nat)
      ensures i == FindCredential(creds, agentId)
    {
      i := 0;
      while i < |creds| && creds[i].agentId != agentId
        invariant i <= |creds|
        invariant forall j :: 0 <= j < i ==> creds[j].agentId != agentId
      {
        i := i + 1;
      }
    }

    /** One locked read-modify-write: applied, resumed, or a record inserted because there was none. */
    method ClaimEnrolment(want: Pending, now: int) returns (claim: Claim)
      modifies this
      ensures claim == Decide(Pruned(old(Doc()), now), want)
      ensures Doc() == if claim.NameConflict? || claim.InviteConflict? then old(Doc())
                       else Claimed(Pruned(old(Doc()), now), want)
    {
      var kept := PruneList(pending, now);
      var i := 0;
      while i < |credentials| && !CredentialAt(credentials[i], want.key, want.busUrl)
        invariant i <= |credentials|
        invariant FindApplied(credentials, want.key, want.busUrl) == FindApplied(credentials[i..], want.key, want.busUrl)
      {
        i := i + 1;
      }
      if i < |credentials| {
        if credentials[i].name != want.name { return NameConflict; }
        claim := AlreadyApplied(credentials[i]);
        Save(Document(current, credentials, kept));
        return;
      }
      var j := 0;
      while j < |kept| && !PendingAt(kept[j], want.key, want.busUrl)
        invariant j <= |kept|
        invariant FindPending(kept, want.key, want.busUrl) == FindPending(kept[j..], want.key, want.busUrl)
      {
        j := j + 1;
      }
      if j < |kept| {
        if kept[j].name != want.name { return NameConflict; }
        if kept[j].inviteId != "" && kept[j].inviteId != want.inviteId { return InviteConflict; }
        claim := Resumed(kept[j]);
        Save(Document(current, credentials, kept));
        return;
      }
      claim := Fresh(want);
      Save(Document(current, credentials, kept + [want]));
    }

    method DropPending(key: string, busUrl: string, now: int)
      modifies this
      ensures Doc() == Dropped(Pruned(old(Doc()), now), key, busUrl)
    {
      var kept := PruneList(pending, now);
      pending := RemoveFromList(kept, key, busUrl);
    }

    /** Stores the credential and clears its in-flight record in one update; refuses an incomplete one. */
    method PromotePending(key: string, cred: Credential, makeCurrent: bool, now: int) returns (ok: bool)
      modifies this
      ensures ok <==> cred.agentId != "" && cred.authSeed != ""
      ensures Doc() == if ok then Promoted(Pruned(old(Doc()), now), key, cred, makeCurrent) else old(Doc())
    {
      if cred.agentId == "" || cred.authSeed == "" { return false; }
      var kept := PruneList(pending, now);
      var i := IndexOf(credentials, cred.agentId);
      if i < |credentials| {
        credentials := credentials[i := cred];
      } else {
        credentials := credentials + [cred];
      }
      if makeCurrent || current == "" { current := cred.agentId; }
      pending := RemoveFromList(kept, key, cred.busUrl);
      return true;
    }

    static method Lowest(creds: seq<Credential>) returns (lowest: string)
      ensures lowest == LowestAgentId(creds)
    {
      lowest := "";
      for i := 0 to |creds|
        invariant lowest == LowestAgentId(creds[..i])
      {
        assert creds[..i + 1][..i] == creds[..i];
        if lowest == "" || (creds[i].agentId != lowest && Le(creds[i].agentId, lowest)) {
          lowest := creds[i].agentId;
        }
      }
      assert creds[..|creds|] == creds;
    }

    static method LogOut(d: Document, c: Credential) returns (d': Document)
      requires c in d.credentials
      ensures d' == LoggedOut(d, c)
    {
      var i := IndexOf(d.credentials, c.agentId);
      var left := d.credentials[..i] + d.credentials[i + 1..];
      var rest := RemoveFromList(d.pending, c.key, c.busUrl);
      var lowest := Lowest(left);
      return Document(if d.current == c.agentId then lowest else d.current, left, rest);
    }

    /** `logout`: the credential and any in-flight record that would recreate it go together. */
    method Remove(ref: string, now: int) returns (removed: Option<string>)
      modifies this
      ensures match Resolve(Pruned(old(Doc()), now), ref)
              case None => removed == None && Doc() == old(Doc())
              case Some(c) => removed == Some(c.agentId) && Doc() == LoggedOut(Pruned(old(Doc()), now), c)
    {
      var kept := PruneList(pending, now);
      var d := Document(current, credentials, kept);
      var at := Resolve(d, ref);
      match at
      case None => return None;
      case Some(c) =>
        var d' := LogOut(d, c);
        Save(d');
        return Some(c.agentId);
    }

    /** `logout --all`: nothing is left behind, in-flight key material included; reports who was there. */
    method RemoveAll() returns (removed: seq<string>)
      modifies this
      ensures Doc() == Document("", [], [])
      ensures removed == Sorted(AgentIds(old(credentials)))
    {
      var ids := new string[|credentials|](i requires 0 <= i < |credentials| reads this => credentials[i].agentId);
      assert ids[..] == AgentIds(credentials);
      SortInPlace(ids);
      removed := ids[..];
      Save(Document("", [], []));
    }

    /** `use`: selects the identity a reference resolves to. */
    method SetCurrent(ref: string, now: int) returns (selected: Option<string>)
      modifies this
      ensures match Resolve(Pruned(old(Doc()), now), ref)
              case None => selected == None && Doc() == old(Doc())
              case Some(c) => selected == Some(c.agentId) && Doc() == Pruned(old(Doc()), now).(current := c.agentId)
    {
      var kept := PruneList(pending, now);
      var at := Resolve(Document(current, credentials, kept), ref);
      match at
      case None => return None;
      case Some(c) =>
        Save(Document(c.agentId, credentials, kept));
        return Some(c.agentId);
    }

    /** Draws a messaging seed once, under the lock; an identity that has one is only read. */
    method EnsureMessagingKey(ref: string, seed: string, now: int) returns (r: Option<Credential>)
      modifies this
      ensures match Resolve(old(Doc()), ref)
              case None => r == None && Doc() == old(Doc())
              case Some(c) =>
                if c.messagingSeed != "" then r == Some(c) && Doc() == old(Doc())
                else
                  var i := FindCredential(old(credentials), c.agentId);
                  && i < |old(credentials)|
                  && r == Some(WithMessagingKey(old(credentials)[i], seed))
                  && Doc() == Pruned(old(Doc()), now).(credentials := old(credentials)[i := r.value])
      ensures r.Some? ==> r.value in Doc().credentials && (seed != "" ==> r.value.messagingSeed != "")
      ensures r.Some? ==>
                exists c :: c in old(credentials) && r.value == c.(messagingSeed := r.value.messagingSeed)
                            && r.value.messagingSeed == if c.messagingSeed == "" then seed else c.messagingSeed
    {
      var found := Resolve(Doc(), ref);
      if found.Some? && found.value.messagingSeed != "" { return found; }
      var kept := PruneList(pending, now);
      ResolveIgnoresPending(Doc(), kept, ref);
      var at := Resolve(Document(current, credentials, kept), ref);
      if at.None? { return None; }
      var i := IndexOf(credentials, at.value.agentId);
      var cred := WithMessagingKey(credentials[i], seed);
      Save(Document(current, credentials[i := cred], kept));
      assert Doc().credentials[i] == cred;
      return Some(cred);
    }
  }
}
