/**
 The at-least-once watch over the cursor file: poll, hand over, then move the cursor.

 The environment is a bus holding this agent's visible messages, of which a prefix
 may have expired, and a script that decides arrivals, expiries, answers, handler
 results, failed writes and the moment the process is killed. The bus contract is
 the guard of `World.Read`. The position is kept in the real cursor file, which other
 agents' processes use at the same time; nobody else watches as this agent.
 */
module Watching {
  import opened Common
  import opened Transport
  import opened MessageIds
  import opened CursorRecords
  import opened CursorMigration
  import opened CursorTable
  import opened Fingerprints

  const MAX_BATCH_LIMIT := 256

  /** `size` 0 and the empty `correlationKey`, `sentAt` and `digest` mean that the bus did not send the field. */
  datatype Message = Message(
    id: string,
    from: string,
    to: seq<string>,
    busPath: seq<string>,
    correlationKey: string,
    sentAt: string,
    size: int,
    digest: string,
    body: string)

  datatype Answer =
    | Gone                                                        // the process was killed
    | Failed(failure: Failure)
    | Batch(messages: seq<Message>, cursor: string, timedOut: bool)

  datatype Polled = Polled(answer: Answer, contextDone: bool)

  /** A failed poll that is followed by another one: a transient fault of the network or the bus, in a live context. */
  predicate PollsAgain(p: Polled) {
    p.answer.Failed? && !p.contextDone && !p.answer.failure.fatal && p.answer.failure.kind in {Network, Server}
  }

  predicate GoesOn(p: Polled) { PollsAgain(p) || (p.answer.Batch? && !p.contextDone) }

  /** How many messages polls brought; a failed one brings none. */
  function Brought(answer: Answer): nat { if answer.Batch? then |answer.messages| else 0 }

  function AllBrought(seen: seq<Polled>): nat {
    if seen == [] then 0 else AllBrought(seen[..|seen| - 1]) + Brought(seen[|seen| - 1].answer)
  }

  /** How a call that may fail, or be cut short by a kill, ended. */
  datatype Verdict = Done | Refused | Interrupted

  datatype Outcome = Clean | Stopped(failure: Failure) | HandlerFailed | NotPersisted | Killed

  datatype Stats = Stats(delivered: nat, cursor: string)

  datatype Options = Options(cursor: string, replay: bool, persist: bool, limit: int, max: int)

  /** What other processes do to the cursor file. */
  datatype Deed = Sets(agent: string, bus: string, cursor: string, now: int) | Clears(agent: string, bus: string) | Damages

  /** What happens next. `killed`: nothing more does. */
  datatype Happening = Happening(
    killed: bool,
    arrivals: seq<Message>,
    expired: nat,
    failure: Option<Failure>,
    received: seq<Message>,
    token: string,
    timedOut: bool,
    ok: bool,
    landed: bool,                       // a failed write may have landed all the same
    clock: int,
    others: seq<Deed>,
    contextDone: bool)

  // ----- What a batch must look like -------------------------------------------

  predicate IsTimestampChar(c: char) {
    IsDigit(c) || 'A' <= c <= 'Z' || 'a' <= c <= 'z' || c == ':' || c == '+' || c == '.' || c == '-' || c == ' '
  }

  predicate LegalTimestamp(s: string) {
    s == "" || (|s| <= 64 && forall i :: 0 <= i < |s| ==> IsTimestampChar(s[i]))
  }

  predicate LegalDigest(s: string) {
    s == "" || (|s| == 64 && forall i :: 0 <= i < |s| ==> IsLowerHex(s[i]))
  }

  predicate LegalIds(ids: seq<string>) { forall i :: 0 <= i < |ids| ==> LegalServerId(ids[i]) }

  predicate LegalFields(m: Message) {
    && LegalServerId(m.id) && LegalServerId(m.from) && LegalTimestamp(m.sentAt)
    && LegalIds(m.to) && LegalIds(m.busPath)
    && (m.correlationKey != "" ==> LegalServerId(m.correlationKey))
    && LegalDigest(m.digest)
  }

  /** The two fields that describe the body agree with it. */
  predicate BodyAgrees(hash: string -> string, m: Message) {
    (m.size != 0 ==> m.size == |m.body|) && (m.digest != "" ==> m.digest == hash(m.body))
  }

  predicate Whole(hash: string -> string, m: Message) { LegalFields(m) && BodyAgrees(hash, m) }

  predicate AllWhole(hash: string -> string, messages: seq<Message>) {
    forall i :: 0 <= i < |messages| ==> Whole(hash, messages[i])
  }

  /** A later poll may bring the same messages whole. */
  function MalformedAnswer(): (f: Failure)
    ensures !f.fatal && f.kind == Server && WatchShouldRetry(f)
  {
    Failure(Server, 0, false, Plain)
  }

  /** No number of polls repairs such a message. */
  function BodyIntegrityError(): (f: Failure)
    ensures f.fatal && f.kind == Server && !WatchShouldRetry(f)
  {
    Failure(Server, 0, true, Plain)
  }

  /**
   One bad message fails the whole batch. The first one decides how: a field that cannot
   be printed is a transient failure of the bus, a body that disagrees with its own
   description is fatal.
   */
  method ValidateBatch(hash: string -> string, cursor: string, messages: seq<Message>) returns (r: Option<Failure>)
    ensures r.None? <==> (cursor == "" || LegalCursor(cursor)) && AllWhole(hash, messages)
    ensures r.Some? ==> r.value == MalformedAnswer() || r.value == BodyIntegrityError()
    ensures r == Some(BodyIntegrityError()) <==>
              && (cursor == "" || LegalCursor(cursor))
              && exists i :: 0 <= i < |messages| && AllWhole(hash, messages[..i])
                             && LegalFields(messages[i]) && !BodyAgrees(hash, messages[i])
  {
    if cursor != "" && !LegalCursor(cursor) { return Some(MalformedAnswer()); }
    for i := 0 to |messages|
      invariant AllWhole(hash, messages[..i])
    {
      if !Whole(hash, messages[i]) {
        OnlyFirstBad(hash, messages, i);
        return Some(if LegalFields(messages[i]) then BodyIntegrityError() else MalformedAnswer());
      }
      assert messages[..i + 1] == messages[..i] + [messages[i]];
    }
    assert messages[..|messages|] == messages;
    return None;
  }

  lemma OnlyFirstBad(hash: string -> string, messages: seq<Message>, i: nat)
    requires i < |messages| && AllWhole(hash, messages[..i]) && !Whole(hash, messages[i])
    ensures forall j :: 0 <= j < |messages| && AllWhole(hash, messages[..j]) && !Whole(hash, messages[j]) ==> j == i
  {
    forall j | 0 <= j < |messages| && AllWhole(hash, messages[..j]) && !Whole(hash, messages[j]) ensures j == i {
      if i < j { PrefixWhole(hash, messages, j, i); }
      if j < i { PrefixWhole(hash, messages, i, j); }
    }
  }

  lemma PrefixWhole(hash: string -> string, messages: seq<Message>, j: nat, k: nat)
    requires k < j <= |messages| && AllWhole(hash, messages[..j])
    ensures Whole(hash, messages[k])
  {
    assert messages[..j][k] == messages[k];
  }

  lemma QualifiedIsNulFree(agent: string, bus: string)
    requires QualifyingBusId(agent) == Some(bus)
    ensures agent != "" && bus != "" && NulFree(agent)
  {
    assert QualifiedOn(agent, bus);
    assert forall i :: 0 <= i < |agent| ==> IsServerIdChar(agent[i]);
  }

  /** A limit that asks for no more than the bus gives, the caller's own limit, and what is still wanted. */
  predicate Admissible(r: int, limit: int, max: int, delivered: nat) {
    && 1 <= r <= MAX_BATCH_LIMIT && (limit > 0 ==> r <= limit)
    && (0 < max && delivered < max ==> r <= max - delivered)
  }

  /** The limit of the next poll, as large as it may be; 0 leaves the choice to the bus. */
  function BatchLimit(limit: int, max: int, delivered: nat): (r: int)
    requires 0 <= limit <= MAX_BATCH_LIMIT
    ensures max <= 0 ==> r == limit
    ensures 0 < max && delivered < max ==>
              Admissible(r, limit, max, delivered) && forall k :: Admissible(k, limit, max, delivered) ==> k <= r
    ensures 0 < max <= delivered ==> r == 1
  {
    var remaining := if max - delivered < 1 then 1 else max - delivered;
    var l := if max > 0 && (limit == 0 || remaining < limit) then remaining else limit;
    if l > MAX_BATCH_LIMIT then MAX_BATCH_LIMIT else l
  }

  predicate NotBefore(p: nat, i: nat) { p <= i }

  ghost predicate Ascending(s: seq<nat>) { forall i, j :: 0 <= i < j < |s| ==> s[i] < s[j] }

  /** The messages of one batch: `n` of them from `from` on. */
  function Span(from: nat, n: nat): (s: seq<nat>)
    ensures |s| == n && forall k :: 0 <= k < n ==> s[k] == from + k
  {
    seq(n, k requires 0 <= k => from + k)
  }

  lemma SpanMember(from: nat, n: nat, i: nat)
    ensures i in Span(from, n) <==> from <= i < from + n
  {
    if from <= i < from + n { assert Span(from, n)[i - from] == i; }
  }

  /** Everything in the range was accepted, or had expired before it could be. */
  ghost predicate CoveredBy(handled: seq<nat>, missed: set<nat>, from: nat, to: nat) {
    forall i: nat :: from <= i < to ==> i in handled || i in missed
  }

  lemma CoverMore(handled: seq<nat>, missed: set<nat>, more: seq<nat>, missed': set<nat>, start: nat, to: nat)
    requires CoveredBy(handled, missed, start, to) && missed <= missed'
    ensures CoveredBy(handled + more, missed', start, to)
  {
  }

  lemma CoverBatch(handled: seq<nat>, missed: set<nat>, start: nat, at: nat, from: nat, n: nat)
    requires CoveredBy(handled, missed, start, at) && CoveredBy(handled, missed, at, from)
    ensures CoveredBy(handled + Span(from, n), missed, start, from + n)
  {
    forall i: nat | start <= i < from + n ensures i in handled + Span(from, n) || i in missed { SpanMember(from, n, i); }
  }

  /** What one watch has accepted: ascending, between two places. */
  ghost predicate Within(mine: seq<nat>, low: nat, high: nat) {
    Ascending(mine) && forall i :: 0 <= i < |mine| ==> low <= mine[i] < high
  }

  lemma WithinBatch(mine: seq<nat>, low: nat, at: nat, from: nat, n: nat)
    requires Within(mine, low, at) && low <= from && at <= from
    ensures Within(mine + Span(from, n), low, from + n)
  {
  }

  /**
   How an iteration ends after a poll: None goes on. `refusals` and `failedWrites` are the
   handler's and the file's during the iteration, `delivered` what was accepted up to its end.
   */
  predicate Ends(p: Polled, end: Option<Outcome>, refusals: int, failedWrites: int, max: int, delivered: nat) {
    && (end == Some(HandlerFailed) <==> refusals == 1) && 0 <= refusals <= 1
    && (end == Some(NotPersisted) <==> failedWrites == 1) && 0 <= failedWrites <= 1
    && (match p.answer
        case Gone => end == Some(Killed)
        case Failed(f) =>
          if PollsAgain(p) then end.None? else end == Some(if p.contextDone then Clean else Stopped(f))
        case Batch(_, _, _) =>
          && (end.Some? ==> !end.value.Stopped?)
          && (end == Some(Clean) ==> p.contextDone || (max > 0 && delivered >= max))
          && (end.None? ==> !p.contextDone && !(max > 0 && delivered >= max)))
  }

  // ----- The loop, seen from outside --------------------------------------------

  /** What a watch leaves behind, at some moment. */
  datatype Snapshot = Snapshot(
    handled: seq<nat>,
    missed: set<nat>,
    stored: string,
    polls: seq<Polled>,
    refusals: nat,
    failedWrites: nat)

  /** The bus and the options of one watch. */
  datatype Setup = Setup(position: string -> nat, honoursLimits: bool, opts: Options)

  /** Between two polls: everything up to the cursor was accepted or had expired, and more is wanted. */
  ghost predicate Between(w: Setup, start: nat, mine: seq<nat>, cursor: string, delivered: nat, now: Snapshot)
  {
    && start <= w.position(cursor) && Within(mine, start, w.position(cursor))
    && CoveredBy(now.handled, now.missed, start, w.position(cursor))
    && delivered == |mine| && (w.opts.max > 0 ==> delivered < w.opts.max)
  }

  /** A poll, the hand-over of its batch, and the position that follows from it. */
  ghost predicate Rounded(w: Setup, start: nat, mine: seq<nat>, cursor: string, was: Snapshot, r: Answer,
                          contextDone: bool, accepted: Verdict, next: string, n: nat, mine': seq<nat>, now: Snapshot)
  {
    && was.missed <= now.missed && now.stored == was.stored
    && (CoveredBy(was.handled, was.missed, start, w.position(was.stored)) ==>
          CoveredBy(now.handled, now.missed, start, w.position(was.stored)))
    && mine <= mine' && now.handled == was.handled + mine'[|mine|..] && |mine'| == |mine| + n
    && Ascending(mine') && (forall i :: i in mine' ==> start <= i)
    && CoveredBy(now.handled, now.missed, start, w.position(next)) && start <= w.position(next)
    && (next != cursor ==> LegalCursor(next) && r.Batch? && accepted.Done?)
    && (!r.Batch? || accepted.Done? ==> Within(mine', start, w.position(next)))
    && now.polls == was.polls + [Polled(r, contextDone)] && now.failedWrites == was.failedWrites
    && now.refusals == was.refusals + (if accepted.Refused? then 1 else 0)
    && (!r.Batch? ==> accepted.Done?) && (accepted.Done? ==> n == Brought(r))
  }

  /** What an iteration hands over, and where it leaves the cursor. */
  ghost predicate Delivers(w: Setup, start: nat, mine: seq<nat>, delivered: nat, was: Snapshot, end: Option<Outcome>,
                           cursor': string, n: nat, mine': seq<nat>, now: Snapshot)
  {
    && was.missed <= now.missed
    && mine <= mine' && now.handled == was.handled + mine'[|mine|..] && |mine'| == delivered + n
    && Ascending(mine') && (forall i :: i in mine' ==> start <= i)
    && CoveredBy(now.handled, now.missed, start, w.position(cursor'))
    && (end.None? ==> Between(w, start, mine', cursor', delivered + n, now))
    && (end == Some(Clean) ==> Within(mine', start, w.position(cursor')))
    && (w.honoursLimits && w.opts.max > 0 ==> delivered + n <= w.opts.max)
  }

  /** What an iteration does to the stored position. */
  ghost predicate Persists(w: Setup, start: nat, cursor: string, was: Snapshot, end: Option<Outcome>, cursor': string,
                           now: Snapshot)
  {
    && (now.stored == was.stored || (w.opts.persist && (now.stored == cursor' || now.stored == "")))
    && (CoveredBy(was.handled, was.missed, start, w.position(was.stored)) ==>
          CoveredBy(now.handled, now.missed, start, w.position(was.stored)))
    && ((end.None? || end == Some(Clean)) && w.opts.persist && cursor' != cursor ==> now.stored == cursor' || now.stored == "")
  }

  /** What an iteration polled, and how it ended. */
  ghost predicate Logs(w: Setup, was: Snapshot, end: Option<Outcome>, delivered: nat, n: nat, poll: Polled, now: Snapshot) {
    && now.polls == was.polls + [poll]
    && Ends(poll, end, now.refusals - was.refusals, now.failedWrites - was.failedWrites, w.opts.max, delivered)
    && (end == Some(HandlerFailed) || end == Some(Killed) || n == Brought(poll.answer))
  }

  ghost predicate Iterated(w: Setup, start: nat, mine: seq<nat>, cursor: string, delivered: nat, was: Snapshot,
                           end: Option<Outcome>, cursor': string, n: nat, mine': seq<nat>, poll: Polled, now: Snapshot)
  {
    && Delivers(w, start, mine, delivered, was, end, cursor', n, mine', now)
    && Persists(w, start, cursor, was, end, cursor', now)
    && Logs(w, was, end, delivered + n, n, poll, now)
  }

  /** The new position was written down, if it was new and to be persisted; the write may have failed. */
  ghost predicate Adopted(w: Setup, cursor: string, next: string, was: Snapshot, written: Verdict, now: Snapshot) {
    && now == was.(stored := now.stored, failedWrites := was.failedWrites + if written.Refused? then 1 else 0)
    && (now.stored == was.stored || (w.opts.persist && (now.stored == next || now.stored == "")))
    && (written.Done? && w.opts.persist && next != cursor ==> now.stored == next || now.stored == "")
  }

  /** What the loop does after a poll, the hand-over of its batch, and the write of the position; None polls again. */
  function Ending(r: Answer, contextDone: bool, accepted: Verdict, written: Verdict, max: int,
                  delivered: nat): Option<Outcome> {
    if r.Gone? then Some(Killed)
    else if r.Failed? then
      if contextDone then Some(Clean)
      else if !WatchShouldRetry(r.failure) then Some(Stopped(r.failure))
      else None
    else if !accepted.Done? then Some(if accepted.Refused? then HandlerFailed else Killed)
    else if !written.Done? then Some(if written.Refused? then NotPersisted else Killed)
    else if (max > 0 && delivered >= max) || contextDone then Some(Clean)
    else None
  }

  lemma IterationEnds(w: Setup, start: nat, mine: seq<nat>, cursor: string, delivered: nat, was: Snapshot, r: Answer,
                      contextDone: bool, accepted: Verdict, next: string, n: nat, mine': seq<nat>, mid: Snapshot,
                      written: Verdict, now: Snapshot)
    requires Between(w, start, mine, cursor, delivered, was)
    requires Rounded(w, start, mine, cursor, was, r, contextDone, accepted, next, n, mine', mid)
    requires w.honoursLimits && w.opts.max > 0 ==> delivered + n <= w.opts.max
    requires if r.Batch? && accepted.Done? then Adopted(w, cursor, next, mid, written, now) else now == mid && written.Done?
    ensures Iterated(w, start, mine, cursor, delivered, was,
                     Ending(r, contextDone, accepted, written, w.opts.max, delivered + n),
                     next, n, mine', Polled(r, contextDone), now)
  {
  }

  /** The stored position is the old one, lost, or one that covers only what was accepted or had expired. */
  ghost predicate StoredOk(w: Setup, first: string, was: Snapshot, now: Snapshot) {
    || now.stored == was.stored
    || (w.opts.persist && (now.stored == "" || CoveredBy(now.handled, now.missed, w.position(first), w.position(now.stored))))
  }

  /** The loop is running: what it has accepted and seen since `was`. */
  ghost predicate Underway(w: Setup, first: string, stats: Stats, mine: seq<nat>, seen: seq<Polled>, was: Snapshot,
                           now: Snapshot)
  {
    && was.missed <= now.missed && now.handled == was.handled + mine
    && Between(w, w.position(first), mine, stats.cursor, stats.delivered, now)
    && StoredOk(w, first, was, now)
    && (w.opts.persist && stats.cursor != first ==> now.stored == stats.cursor || now.stored == "")
    && now.polls == was.polls + seen && now.refusals == was.refusals && now.failedWrites == was.failedWrites
    && (forall i :: 0 <= i < |seen| ==> GoesOn(seen[i])) && stats.delivered == AllBrought(seen)
  }

  /** The loop is over. */
  ghost predicate Over(w: Setup, first: string, stats: Stats, mine: seq<nat>, seen: seq<Polled>, was: Snapshot,
                       outcome: Outcome, now: Snapshot)
  {
    && was.missed <= now.missed && now.handled == was.handled + mine && stats.delivered == |mine|
    && Ascending(mine) && (forall i :: i in mine ==> w.position(first) <= i)
    && CoveredBy(now.handled, now.missed, w.position(first), w.position(stats.cursor))
    && StoredOk(w, first, was, now)
    && (outcome.Clean? ==> Within(mine, w.position(first), w.position(stats.cursor)))
    && (outcome.Clean? && w.opts.persist && stats.cursor != first ==> now.stored == stats.cursor || now.stored == "")
    && (w.honoursLimits && w.opts.max > 0 ==> stats.delivered <= w.opts.max)
    && now.polls == was.polls + seen && seen != []
    && (forall i :: 0 <= i < |seen| - 1 ==> GoesOn(seen[i]))
    && Ends(seen[|seen| - 1], Some(outcome), now.refusals - was.refusals, now.failedWrites - was.failedWrites,
            w.opts.max, stats.delivered)
    && (outcome.HandlerFailed? || outcome.Killed? || stats.delivered == AllBrought(seen))
  }

  lemma StaysStoredOk(w: Setup, first: string, cursor: string, was: Snapshot, mid: Snapshot, end: Option<Outcome>,
                      cursor': string, now: Snapshot)
    requires StoredOk(w, first, was, mid)
    requires Persists(w, w.position(first), cursor, mid, end, cursor', now)
    requires CoveredBy(now.handled, now.missed, w.position(first), w.position(cursor'))
    ensures StoredOk(w, first, was, now)
  {
  }

  lemma StaysUnderway(w: Setup, first: string, stats: Stats, mine: seq<nat>, seen: seq<Polled>, was: Snapshot,
                      mid: Snapshot, stats': Stats, n: nat, mine': seq<nat>, poll: Polled, now: Snapshot)
    requires Underway(w, first, stats, mine, seen, was, mid) && stats'.delivered == stats.delivered + n
    requires Iterated(w, w.position(first), mine, stats.cursor, stats.delivered, mid, None,
                      stats'.cursor, n, mine', poll, now)
    ensures Underway(w, first, stats', mine', seen + [poll], was, now)
  {
    StaysStoredOk(w, first, stats.cursor, was, mid, None, stats'.cursor, now);
    assert mine' == mine + mine'[|mine|..];
    assert (seen + [poll])[..|seen|] == seen;
  }

  lemma IsOver(w: Setup, first: string, stats: Stats, mine: seq<nat>, seen: seq<Polled>, was: Snapshot, mid: Snapshot,
               outcome: Outcome, stats': Stats, n: nat, mine': seq<nat>, poll: Polled, now: Snapshot)
    requires Underway(w, first, stats, mine, seen, was, mid) && stats'.delivered == stats.delivered + n
    requires Iterated(w, w.position(first), mine, stats.cursor, stats.delivered, mid, Some(outcome),
                      stats'.cursor, n, mine', poll, now)
    ensures Over(w, first, stats', mine', seen + [poll], was, outcome, now)
  {
    StaysStoredOk(w, first, stats.cursor, was, mid, Some(outcome), stats'.cursor, now);
    assert mine' == mine + mine'[|mine|..];
    assert (seen + [poll])[..|seen|] == seen;
  }

  /** A resumed watch keeps the stored position behind what was accepted or had expired. */
  lemma CoverAgain(w: Setup, stats: Stats, mine: seq<nat>, seen: seq<Polled>, was: Snapshot, outcome: Outcome,
                   now: Snapshot, began: nat)
    requires CoveredBy(was.handled, was.missed, began, w.position(was.stored))
    requires Over(w, was.stored, stats, mine, seen, was, outcome, now)
    requires w.position("") == 0
    ensures CoveredBy(now.handled, now.missed, began, w.position(now.stored))
  {
    CoverMore(was.handled, was.missed, mine, now.missed, began, w.position(was.stored));
  }

  class World {
    const hash: string -> string
    const position: string -> nat       // what a cursor token means to the bus; "" is the beginning
    const honoursLimits: bool
    const script: seq<Happening>
    const agent: string
    const bus: string
    const file: CursorFile

    var at: nat
    var visible: seq<Message>           // every message this agent may see, oldest first
    var retained: nat                   // how many of them have expired
    var handled: seq<nat>               // the messages the handler accepted, in order
    ghost var missed: set<nat>          // the messages that had expired when a poll reached their place
    ghost var polls: seq<Polled>        // what every poll brought, and whether the context had ended by then
    ghost var refusals: nat             // how often the handler refused a message
    ghost var failedWrites: nat         // how often a write of the position was reported as failed

    constructor (hash: string -> string, position: string -> nat, honoursLimits: bool, script: seq<Happening>,
                 agent: string, bus: string, file: CursorFile, visible: seq<Message>, retained: nat)
      requires position("") == 0 && retained <= |visible| && QualifyingBusId(agent) == Some(bus) && file.Tidy()
      ensures Valid() && this.file == file && this.position == position && handled == [] && missed == {}
    {
      this.hash, this.position, this.honoursLimits, this.script := hash, position, honoursLimits, script;
      this.agent, this.bus, this.file := agent, bus, file;
      this.at, this.visible, this.retained := 0, visible, retained;
      this.handled, this.missed, this.polls, this.refusals, this.failedWrites := [], {}, [], 0, 0;
    }

    ghost predicate Valid() reads this, file {
      && at <= |script|
      && position("") == 0
      && retained <= |visible|
      && QualifyingBusId(agent) == Some(bus)
      && file.Tidy()
      && (forall i :: i in missed ==> i < retained)
      && (forall i :: i in handled ==> i < |visible| && Whole(hash, visible[i]))
    }

    /** Nothing more happens: the process is killed at this point. */
    predicate Dead() reads this { at >= |script| || script[at].killed }

    /** The position a look-up of this agent finds. */
    function Stored(): string reads this, file { Lookup(file.Loaded(), agent, bus) }

    ghost function Under(opts: Options): Setup { Setup(position, honoursLimits, opts) }

    ghost predicate Covered(from: nat, to: nat) reads this { CoveredBy(handled, missed, from, to) }

    /** Time passes, messages arrive and expire; None when the process is killed here. */
    method Next() returns (h: Option<Happening>)
      requires Valid()
      modifies this`at, this`visible, this`retained
      ensures Valid() && old(visible) <= visible && old(retained) <= retained
      ensures h.Some? ==> at == old(at) + 1 && h.value == script[old(at)]
      ensures h.None? <==> old(Dead())
      ensures h.None? ==> at == old(at)
    {
      if Dead() { return None; }
      var now := script[at];
      at := at + 1;
      visible := visible + now.arrivals;
      if retained < now.expired <= |visible| { retained := now.expired; }
      return Some(now);
    }

    /**
     One poll. The bus serves what follows the cursor and is still retained, in order
     and without gaps, or answers something that fails the checks; whatever else the
     script proposes becomes a failed poll.
     */
    method Read(cursor: string, limit: int) returns (r: Answer, contextDone: bool)
      requires Valid()
      modifies this`at, this`visible, this`retained, this`missed
      ensures Valid() && old(visible) <= visible && old(missed) <= missed
      ensures !r.Gone? ==> at == old(at) + 1
      ensures r.Gone? ==> Dead()
      ensures !r.Gone? ==>
                && contextDone == script[old(at)].contextDone
                && (script[old(at)].failure.Some? ==> r == Failed(script[old(at)].failure.value))
      ensures r.Batch? ==>
                var from := if position(cursor) < retained then retained else position(cursor);
                var to := from + |r.messages|;
                && to <= |visible| && r.messages == visible[from..to] && AllWhole(hash, r.messages)
                && (r.cursor != "" ==> LegalCursor(r.cursor))
                && (honoursLimits && limit > 0 ==> |r.messages| <= limit)
                && (r.cursor == "" || r.cursor == cursor ==> r.messages == [])
                && (r.cursor != "" && r.cursor != cursor ==> position(r.cursor) == to)
                && (forall i: nat :: position(cursor) <= i < from ==> i in missed)
    {
      contextDone := false;
      var h := Next();
      if h.None? { return Gone, contextDone; }
      contextDone := h.value.contextDone;
      if h.value.failure.Some? { return Failed(h.value.failure.value), contextDone; }
      var received, token := h.value.received, h.value.token;
      var bad := ValidateBatch(hash, token, received);
      if bad.Some? { return Failed(bad.value), contextDone; }
      var from := if position(cursor) < retained then retained else position(cursor);
      var to := from + |received|;
      var legal := to <= |visible| && received == visible[from..to]
        && (honoursLimits && limit > 0 ==> |received| <= limit)
        && (if token == "" || token == cursor then received == [] else position(token) == to);
      if !legal { return Failed(StatusError(500, false, false)), contextDone; }
      missed := missed + set i: nat | i < from && NotBefore(position(cursor), i);
      return Batch(received, token, h.value.timedOut), contextDone;
    }

    /** The handler's verdict on one message. */
    method Handle(i: nat) returns (accepted: Verdict)
      requires Valid() && i < |visible| && Whole(hash, visible[i])
      modifies this`at, this`visible, this`retained, this`handled, this`refusals
      ensures Valid() && old(visible) <= visible
      ensures handled == old(handled) + (if accepted.Done? then [i] else [])
      ensures refusals == old(refusals) + (if accepted.Refused? then 1 else 0)
      ensures at >= old(at) && (accepted.Interrupted? ==> Dead())
    {
      var h := Next();
      if h.None? { return Interrupted; }
      if h.value.ok { handled := handled + [i]; } else { refusals := refusals + 1; }
      return if h.value.ok then Done else Refused;
    }

    /** One update of the file by another agent, or damage to it: this agent's position stays or is lost. */
    method OtherActs(d: Deed)
      requires Valid()
      modifies file
      ensures Valid() && (Stored() == old(Stored()) || Stored() == "")
      ensures match d
              case Sets(a, b, cursor, now) =>
                (a, b) != (agent, bus) && a != "" && b != "" && NulFree(a) && |cursor| <= MAX_CURSOR_LEN ==>
                  file.readable && file.records == Updated(old(file.Loaded()), a, b, cursor, now)
              case Clears(a, b) =>
                a != "" && b != "" ==> file.readable && file.records == Cleared(old(file.Loaded()), a, b)
              case Damages => !file.readable
    {
      ghost var rs := file.Loaded();
      if file.readable { TableIsMigrated(file.records); }
      match d
      case Sets(a, b, cursor, now) =>
        if (a, b) == (agent, bus) || b == "" || !NulFree(a) { return; }
        var ok := file.SetCursor(a, b, cursor, now, true);
        if ok {
          UpdatedKeepsTable(rs, a, b, cursor, now);
          TableIsMigrated(file.records);
          UpdatedLookup(rs, a, b, cursor, now, agent, bus);
        }
      case Clears(a, b) =>
        var ok := file.ClearCursor(a, b, true);
        if ok {
          ClearForgets(rs, a, b, agent, bus);
          TableIsMigrated(file.records);
        }
      case Damages =>
        file.Damage();
        LookupAbsent([], agent, bus);
    }

    method OthersAct(deeds: seq<Deed>)
      requires Valid()
      modifies file
      ensures Valid() && (Stored() == old(Stored()) || Stored() == "")
    {
      for i := 0 to |deeds|
        invariant Valid() && (Stored() == old(Stored()) || Stored() == "")
      {
        OtherActs(deeds[i]);
      }
    }

    /**
     A write of the cursor file, among the other agents' ones: it takes effect or not, and
     a failure may be reported either way. A full table may evict the record at once.
     */
    method SetCursor(cursor: string) returns (r: Verdict)
      requires Valid() && LegalCursor(cursor)
      modifies this`at, this`visible, this`retained, this`failedWrites, file
      ensures Valid() && old(visible) <= visible
      ensures Stored() == cursor || Stored() == "" || (Stored() == old(Stored()) && !r.Done?)
      ensures failedWrites == old(failedWrites) + (if r.Refused? then 1 else 0)
      ensures at >= old(at) && (r.Interrupted? ==> Dead())
    {
      var h := Next();
      if h.None? { return Interrupted; }
      OthersAct(h.value.others);
      if h.value.ok || h.value.landed { Write(cursor, h.value.clock); }
      if !h.value.ok { failedWrites := failedWrites + 1; }
      return if h.value.ok then Done else Refused;
    }

    /** The write itself; what it stored can be read back exactly when `CursorTable.ReadBack` says so. */
    method Write(cursor: string, now: int)
      requires Valid() && LegalCursor(cursor)
      modifies file
      ensures Valid() && (Stored() == cursor || Stored() == "")
      ensures Stored() == cursor <==>
                || Find(old(file.Loaded()), agent, bus) < |old(file.Loaded())|
                || |old(file.Loaded())| < MAX_STORED_CURSORS
                || exists r :: r in old(file.Loaded()) && r.updated <= now
    {
      ghost var rs := file.Loaded();
      if file.readable { TableIsMigrated(file.records); }
      QualifiedIsNulFree(agent, bus);
      var ok := file.SetCursor(agent, bus, cursor, now, true);
      UpdatedKeepsTable(rs, agent, bus, cursor, now);
      TableIsMigrated(file.records);
      UpdatedLookup(rs, agent, bus, cursor, now, agent, bus);
      ReadBack(rs, agent, bus, cursor, now);
    }

    /** Hands over one batch in order; stops at the first message the handler does not accept. */
    method HandOver(from: nat, count: nat) returns (n: nat, accepted: Verdict)
      requires Valid() && from + count <= |visible| && AllWhole(hash, visible[from..from + count])
      modifies this`at, this`visible, this`retained, this`handled, this`refusals
      ensures Valid() && old(visible) <= visible && at >= old(at)
      ensures refusals == old(refusals) + (if accepted.Refused? then 1 else 0)
      ensures n <= count && handled == old(handled) + Span(from, n)
      ensures (accepted.Done? <==> n == count) && (accepted.Interrupted? ==> Dead())
    {
      n, accepted := 0, Done;
      while n < count
        invariant n <= count && Valid() && old(visible) <= visible && at >= old(at)
        invariant handled == old(handled) + Span(from, n)
        invariant accepted.Done? && refusals == old(refusals)
      {
        assert old(visible)[from..from + count][n] == visible[from + n];
        accepted := Handle(from + n);
        if !accepted.Done? { return; }
        n := n + 1;
      }
    }

    /**
     One poll and, if it succeeds, the hand-over of its batch: `n` messages from `from`
     on were accepted, and the batch's cursor stands right behind them once all were.
     */
    method Poll(cursor: string, limit: int)
      returns (r: Answer, contextDone: bool, accepted: Verdict, n: nat, ghost from: nat)
      requires Valid()
      modifies this
      ensures Valid() && old(visible) <= visible && old(missed) <= missed
      ensures handled == old(handled) + Span(from, n) && position(cursor) <= from
      ensures polls == old(polls) + [Polled(r, contextDone)] && failedWrites == old(failedWrites)
      ensures refusals == old(refusals) + (if accepted.Refused? then 1 else 0)
      ensures (!r.Batch? ==> accepted.Done?) && (accepted.Done? ==> n == Brought(r))
      ensures r.Gone? || accepted.Interrupted? ==> Dead()
      ensures honoursLimits && limit > 0 ==> n <= limit
      ensures !r.Gone? ==> at > old(at)
      ensures r.Batch? ==> CoveredBy([], missed, position(cursor), from)
      ensures r.Batch? && accepted.Done? && r.cursor != "" && r.cursor != cursor ==>
                position(r.cursor) == from + n && LegalCursor(r.cursor)
      ensures r.Batch? && (r.cursor == "" || r.cursor == cursor) ==> Brought(r) == 0
    {
      n, accepted, from := 0, Done, position(cursor);
      r, contextDone := Read(cursor, limit);
      polls := polls + [Polled(r, contextDone)];
      if !r.Batch? { return; }
      var first := if position(cursor) < retained then retained else position(cursor);
      from := first;
      n, accepted := HandOver(first, |r.messages|);
    }

    /**
     One round of the loop up to the new position: `next` differs from `cursor` only
     when the whole batch was accepted. `mine` is what this watch accepted before.
     */
    method Round(opts: Options, cursor: string, limit: int, ghost start: nat, ghost mine: seq<nat>)
      returns (r: Answer, contextDone: bool, accepted: Verdict, next: string, n: nat, ghost mine': seq<nat>)
      requires Valid() && start <= position(cursor) && Within(mine, start, position(cursor))
      requires Covered(start, position(cursor))
      modifies this
      ensures Valid() && old(visible) <= visible && (!r.Gone? ==> at > old(at))
      ensures Rounded(Under(opts), start, mine, cursor, old(Now()), r, contextDone, accepted, next, n, mine', Now())
      ensures honoursLimits && limit > 0 ==> n <= limit
      ensures r.Gone? || accepted.Interrupted? ==> Dead()
    {
      ghost var from;
      r, contextDone, accepted, n, from := Poll(cursor, limit);
      next := if r.Batch? && accepted.Done? && r.cursor != "" then r.cursor else cursor;
      mine' := mine + Span(from, n);
      WithinBatch(mine, start, position(cursor), from, n);
      CoverMore(old(handled), old(missed), Span(from, n), missed, start, position(cursor));
      if old(Covered(start, position(Stored()))) {
        CoverMore(old(handled), old(missed), Span(from, n), missed, start, position(Stored()));
      }
      assert n == 0 ==> mine' == mine;
      if next != cursor { CoverBatch(old(handled), missed, start, position(cursor), from, n); }
    }

    /** The new position is written down, if it is new and to be persisted. */
    method Adopt(opts: Options, cursor: string, next: string) returns (r: Verdict)
      requires Valid() && (next != cursor ==> LegalCursor(next))
      modifies this`at, this`visible, this`retained, this`failedWrites, file
      ensures Valid() && old(visible) <= visible && at >= old(at)
      ensures Adopted(Under(opts), cursor, next, old(Now()), r, Now()) && (r.Interrupted? ==> Dead())
    {
      if next == cursor || !opts.persist { return Done; }
      r := SetCursor(next);
    }

    ghost function Now(): Snapshot reads this, file { Snapshot(handled, missed, Stored(), polls, refusals, failedWrites) }

    /**
     A whole iteration: poll, hand over, move the cursor, and decide whether to go on
     (None). A failed poll goes on exactly when `PollsAgain` says so, and otherwise
     stops with that very failure; a batch goes on unless it was the last one wanted.
     */
    method Iterate(opts: Options, cursor: string, ghost start: nat, ghost mine: seq<nat>, delivered: nat)
      returns (end: Option<Outcome>, cursor': string, n: nat, ghost mine': seq<nat>, ghost poll: Polled)
      requires Valid() && 0 <= opts.limit <= MAX_BATCH_LIMIT && 0 <= opts.max
      requires Between(Under(opts), start, mine, cursor, delivered, Now())
      modifies this, file
      ensures Valid() && old(visible) <= visible && (end.None? ==> at > old(at))
      ensures Iterated(Under(opts), start, mine, cursor, delivered, old(Now()), end, cursor', n, mine', poll, Now())
      ensures end == Some(Killed) ==> Dead()
    {
      var batch, contextDone, accepted, next;
      batch, contextDone, accepted, next, n, mine' := Round(opts, cursor, BatchLimit(opts.limit, opts.max, delivered), start, mine);
      cursor', poll := next, Polled(batch, contextDone);
      ghost var mid := Now();
      var written := Done;
      if batch.Batch? && accepted.Done? { written := Adopt(opts, cursor, next); }
      end := Ending(batch, contextDone, accepted, written, opts.max, delivered + n);
      IterationEnds(Under(opts), start, mine, cursor, delivered, old(Now()),
                    batch, contextDone, accepted, next, n, mine', mid, written, Now());
    }

    /** Where a watch begins: the explicit cursor, the beginning, or the stored position. */
    method StartCursor(opts: Options) returns (cursor: string)
      requires Valid()
      ensures cursor == if opts.cursor == "" && !opts.replay then Stored() else opts.cursor
    {
      if opts.cursor != "" || opts.replay { return opts.cursor; }
      QualifiedIsNulFree(agent, bus);
      var found := file.Cursor(agent, bus);
      return found.value;
    }

    /** The loop, from a given cursor. */
    method Loop(opts: Options, first: string)
      returns (outcome: Outcome, stats: Stats, ghost mine: seq<nat>, ghost seen: seq<Polled>)
      requires Valid() && 0 <= opts.limit <= MAX_BATCH_LIMIT && 0 <= opts.max
      modifies this, file
      ensures Valid() && old(visible) <= visible
      ensures Over(Under(opts), first, stats, mine, seen, old(Now()), outcome, Now())
      ensures outcome.Killed? ==> Dead()
    {
      ghost var was := Now();
      mine, seen, stats := [], [], Stats(0, first);
      while true
        invariant Valid() && old(visible) <= visible
        invariant Underway(Under(opts), first, stats, mine, seen, was, Now())
        decreases |script| - at
      {
        ghost var before, mine0 := Now(), mine;
        var end, cursor, n;
        ghost var poll;
        end, cursor, n, mine, poll := Iterate(opts, stats.cursor, position(first), mine, stats.delivered);
        var stats' := Stats(stats.delivered + n, cursor);
        if end.None? {
          StaysUnderway(Under(opts), first, stats, mine0, seen, was, before, stats', n, mine, poll, Now());
        } else {
          IsOver(Under(opts), first, stats, mine0, seen, was, before, end.value, stats', n, mine, poll, Now());
        }
        stats, seen := stats', seen + [poll];
        if end.Some? { return end.value, stats, mine, seen; }
      }
    }

    /**
     One watch, whatever the bus, the handler, the disk, the other agents and the
     operator do to it.

     The cursor it reports, and the one the file shows, never cover a message the
     handler did not accept, unless that message had expired when its turn came.
     Within one watch each message is accepted once, in order; a clean end falls
     between two batches; a bounded watch never hands over more than asked. It ends
     exactly as `Ends` says of its last poll, and every poll before that was a batch or
     a transient failure.
     */
    method Watch(opts: Options)
      returns (outcome: Outcome, stats: Stats, ghost mine: seq<nat>, ghost first: string, ghost seen: seq<Polled>)
      requires Valid()
      modifies this, file
      ensures Valid() && old(visible) <= visible
      ensures first == if opts.cursor == "" && !opts.replay then old(Stored()) else opts.cursor
      ensures if opts.limit < 0 || opts.limit > MAX_BATCH_LIMIT || opts.max < 0
              then outcome.Stopped? && outcome.failure.kind == Usage && mine == [] && seen == [] && Now() == old(Now())
              else Over(Under(opts), first, stats, mine, seen, old(Now()), outcome, Now())
      ensures outcome.Killed? ==> Dead()
    {
      var cursor := StartCursor(opts);
      first := cursor;
      if opts.limit < 0 || opts.limit > MAX_BATCH_LIMIT || opts.max < 0 {
        return Stopped(Failure(Usage, 0, false, Plain)), Stats(0, cursor), [], first, [];
      }
      outcome, stats, mine, seen := Loop(opts, cursor);
    }

    /**
     Any number of resumed watches, each killed or stopped at any point, while the other
     agents use, evict from, clear and damage the file: what lies between the first start
     and the position the file finally shows was accepted, or had expired.
     */
    method WatchAgain(limits: seq<(int, int)>, between: seq<seq<Deed>>)
      requires Valid() && |between| == |limits|
      modifies this, file
      ensures Valid()
      ensures Covered(position(old(Stored())), position(Stored()))
    {
      ghost var began := position(Stored());
      for k := 0 to |limits|
        invariant Valid() && Covered(began, position(Stored()))
      {
        ghost var was := Now();
        ghost var mine, first, seen;
        var outcome, stats;
        var opts := Options("", false, true, limits[k].0, limits[k].1);
        outcome, stats, mine, first, seen := Watch(opts);
        if seen != [] { CoverAgain(Under(opts), stats, mine, seen, was, outcome, Now(), began); }
        OthersAct(between[k]);
      }
    }
  }
}
