/**
 Sessions: when one expires and is refreshed, and the single-flighted handshake.

 Times and durations are nanoseconds. Durations are 64-bit and wrap where the
 source multiplies; the floating-point fraction of a lifetime is an arbitrary
 function, because no result here depends on its rounding.
 */
module SessionFlight {
  import opened Common

  const SECOND := 1_000_000_000
  const SESSION_EXPIRY_GRACE := SECOND
  const DEFAULT_TIMEOUT := 30 * SECOND
  const TWO63 := 0x8000_0000_0000_0000

  function Wrap64(n: int): int { (n + TWO63) % (2 * TWO63) - TWO63 }

  /** The difference of two instants saturates. */
  function Between(from: int, to: int): int {
    if to - from >= TWO63 then TWO63 - 1 else if to - from < -TWO63 then -TWO63 else to - from
  }

  datatype Session = Session(id: nat, expiresAt: int, refreshAt: int)

  predicate Usable(s: Session, now: int) {
    now < s.expiresAt - SESSION_EXPIRY_GRACE && now < s.refreshAt
  }

  /** What the bus answered: the seconds as sent, and the expiry if it parsed. */
  datatype Activation = Activation(lifetimeSeconds: int, refreshAfterSeconds: int, expiresAt: Option<int>)

  /** The schedule of a new session; None when the answer holds no usable expiry. */
  function Schedule(id: nat, now: int, a: Activation, fraction: int -> int): (s: Option<Session>)
    ensures s.Some? ==> s.value.refreshAt < s.value.expiresAt
    ensures s.None? <==> a.expiresAt.None? && Wrap64(a.lifetimeSeconds * SECOND) <= 0
    ensures s.Some? && a.expiresAt.Some? ==> s.value.expiresAt == a.expiresAt.value
    ensures s.Some? && a.refreshAfterSeconds > 0 ==>
              var asked := now + Wrap64(a.refreshAfterSeconds * SECOND);
              s.value.refreshAt == if asked < s.value.expiresAt then asked else s.value.expiresAt - SESSION_EXPIRY_GRACE
  {
    var given := Wrap64(a.lifetimeSeconds * SECOND);
    if a.expiresAt.None? && given <= 0 then None else
    var expiresAt := if a.expiresAt.Some? then a.expiresAt.value else now + given;
    var lifetime := if given <= 0 then Between(now, expiresAt) else given;
    var refreshAt := now + (if a.refreshAfterSeconds > 0 then Wrap64(a.refreshAfterSeconds * SECOND) else fraction(lifetime));
    Some(Session(id, expiresAt, if refreshAt < expiresAt then refreshAt else expiresAt - SESSION_EXPIRY_GRACE))
  }

  /** The schedule made during certificate migration, which lacks the last correction. */
  function MigrationSchedule(id: nat, now: int, a: Activation, fraction: int -> int): Session {
    var lifetime := Wrap64(a.lifetimeSeconds * SECOND);
    var expiresAt :=
      if a.expiresAt.Some? then a.expiresAt.value
      else if lifetime > 0 then now + lifetime
      else now + DEFAULT_TIMEOUT;
    var refreshAt :=
      if a.refreshAfterSeconds > 0 then now + Wrap64(a.refreshAfterSeconds * SECOND)
      else if lifetime > 0 then now + fraction(lifetime)
      else expiresAt;
    Session(id, expiresAt, refreshAt)
  }

  /** A refresh the bus asks for beyond the life it grants is scheduled after the end of the session. */
  lemma MigrationRefreshesTooLate(id: nat, now: int, seconds: int, later: int, fraction: int -> int)
    requires 0 < seconds < later <= TWO63 / SECOND - 1
    ensures var s := MigrationSchedule(id, now, Activation(seconds, later, None), fraction);
            s.expiresAt < s.refreshAt
  {
    assert Wrap64(seconds * SECOND) == seconds * SECOND && Wrap64(later * SECOND) == later * SECOND;
  }

  /** What is left of the session at `now`, as the migration counts it. */
  function Remaining(now: int, a: Activation): int {
    var lifetime := Wrap64(a.lifetimeSeconds * SECOND);
    if a.expiresAt.Some? then a.expiresAt.value - now else if lifetime > 0 then lifetime else DEFAULT_TIMEOUT
  }

  /**
   Exactly when it comes out in order, for every answer: the refresh the bus asks for,
   or the fraction of a positive lifetime, falls within what remains. Without either,
   the refresh is at the expiry.
   */
  lemma MigrationOrdered(id: nat, now: int, a: Activation, fraction: int -> int)
    ensures var s, lifetime := MigrationSchedule(id, now, a, fraction), Wrap64(a.lifetimeSeconds * SECOND);
            s.refreshAt < s.expiresAt <==>
            if a.refreshAfterSeconds > 0 then Wrap64(a.refreshAfterSeconds * SECOND) < Remaining(now, a)
            else lifetime > 0 && fraction(lifetime) < Remaining(now, a)
  {
  }

  // ----- The single flight ---------------------------------------------------

  datatype Phase =
    | Begun(force: bool)
    | Waiting(force: bool)
    | Rechecking(force: bool)
    | Handshaking(force: bool)
    | Storing(session: Session)
    | Done(session: Session)
    | Failed

  /**
   `obtained` are the sessions that successful handshakes brought or the disk held, in
   order; `handshakes` counts the former. `losses` counts the times a usable cached
   session was cleared, replaced or stopped being usable, and the sessions that were no
   longer usable when stored. `migrations` counts the certificate migrations, which put
   their session into the cache outside the gate.
   */
  datatype State = State(
    now: int,
    cached: Option<Session>,
    gate: Option<nat>,
    calls: map<nat, Phase>,
    obtained: seq<Session>,
    handshakes: nat,
    losses: nat,
    migrations: nat)

  datatype Event =
    | Tick(elapsed: nat)
    | Clear
    | Migrate(session: Session)
    | Call(p: nat, force: bool)
    | Check(p: nat)
    | Acquire(p: nat)
    | Recheck(p: nat)
    | LoadPersisted(p: nat, session: Session)
    | Handshake(p: nat, result: Option<Session>)
    | Store(p: nat)

  predicate Live(cached: Option<Session>, now: int) { cached.Some? && Usable(cached.value, now) }

  predicate Enabled(s: State, e: Event) {
    match e
    case Tick(_) => true
    case Clear => true
    case Migrate(_) => true
    case Call(p, _) => p !in s.calls
    case Check(p) => p in s.calls && s.calls[p].Begun?
    case Acquire(p) => p in s.calls && s.calls[p].Waiting? && s.gate.None?
    case Recheck(p) => p in s.calls && s.calls[p].Rechecking?
    case LoadPersisted(p, session) => p in s.calls && s.calls[p] == Handshaking(false) && Usable(session, s.now)
    case Handshake(p, _) => p in s.calls && s.calls[p].Handshaking?
    case Store(p) => p in s.calls && s.calls[p].Storing?
  }

  function One(b: bool): nat { if b then 1 else 0 }

  /** `session` takes the place of whatever is cached. */
  function Cached(s: State, session: Session): State {
    s.(cached := Some(session), losses := s.losses + One(Live(s.cached, s.now)) + One(!Usable(session, s.now)))
  }

  function Step(s: State, e: Event): State
    requires Enabled(s, e)
  {
    match e
    case Tick(elapsed) =>
      s.(now := s.now + elapsed, losses := s.losses + One(Live(s.cached, s.now) && !Live(s.cached, s.now + elapsed)))
    case Clear => s.(cached := None, losses := s.losses + One(Live(s.cached, s.now)))
    case Migrate(session) =>
      Cached(s, session).(obtained := s.obtained + [session], handshakes := s.handshakes + 1, migrations := s.migrations + 1)
    case Call(p, force) => s.(calls := s.calls[p := Begun(force)])
    case Check(p) =>
      if !s.calls[p].force && Live(s.cached, s.now) then s.(calls := s.calls[p := Done(s.cached.value)])
      else s.(calls := s.calls[p := Waiting(s.calls[p].force)])
    case Acquire(p) => s.(gate := Some(p), calls := s.calls[p := Rechecking(s.calls[p].force)])
    case Recheck(p) =>
      if Live(s.cached, s.now) then s.(gate := None, calls := s.calls[p := Done(s.cached.value)])
      else s.(calls := s.calls[p := Handshaking(s.calls[p].force)])
    case LoadPersisted(p, session) => s.(calls := s.calls[p := Storing(session)], obtained := s.obtained + [session])
    case Handshake(p, result) =>
      if result.None? then s.(gate := None, calls := s.calls[p := Failed])
      else s.(calls := s.calls[p := Storing(result.value)], obtained := s.obtained + [result.value],
              handshakes := s.handshakes + 1)
    case Store(p) =>
      var made := s.calls[p].session;
      Cached(s, made).(gate := None, calls := s.calls[p := Done(made)])
  }

  ghost predicate Possible(s: State, run: seq<Event>)
    decreases |run|, 0
  {
    run == [] || (Possible(s, run[..|run| - 1]) && Enabled(After(s, run[..|run| - 1]), run[|run| - 1]))
  }

  ghost function After(s: State, run: seq<Event>): State
    requires Possible(s, run)
    decreases |run|, 1
  {
    if run == [] then s else Step(After(s, run[..|run| - 1]), run[|run| - 1])
  }

  function Cold(now: int): State { State(now, None, None, map[], [], 0, 0, 0) }

  predicate Inside(phase: Phase) { phase.Rechecking? || phase.Handshaking? || phase.Storing? }

  predicate BeingStored(s: State) { s.gate.Some? && s.gate.value in s.calls && s.calls[s.gate.value].Storing? }

  ghost predicate Gated(s: State) {
    && (forall p :: p in s.calls && Inside(s.calls[p]) ==> s.gate == Some(p))
    && (s.gate.Some? ==> s.gate.value in s.calls && Inside(s.calls[s.gate.value]))
  }

  /** Every session is paid for by a loss, except the one that is cached and the one on its way there. */
  ghost predicate Paid(s: State) {
    && s.handshakes <= |s.obtained| <= s.losses + One(Live(s.cached, s.now)) + One(BeingStored(s))
    && (s.migrations == 0 ==>
          forall p :: p in s.calls && (s.calls[p].Handshaking? || s.calls[p].Storing?) ==> !Live(s.cached, s.now))
  }

  /** While nothing is lost and nobody migrates, there is one session and everybody has it. */
  ghost predicate Agreed(s: State) {
    s.losses == 0 && s.migrations == 0 ==>
      && (s.cached.Some? ==> Live(s.cached, s.now) && [s.cached.value] == s.obtained)
      && (forall p :: p in s.calls && (s.calls[p].Done? || s.calls[p].Storing?) ==> [s.calls[p].session] == s.obtained)
  }

  ghost predicate Inv(s: State) { Gated(s) && Paid(s) && Agreed(s) }

  lemma ObtainKeeps(s: State, e: Event)
    requires Inv(s) && Enabled(s, e) && (e.Handshake? || e.LoadPersisted?)
    ensures Inv(Step(s, e))
  {
    assert Inside(s.calls[e.p]) && s.gate == Some(e.p) && !BeingStored(s);
    if s.losses == 0 && s.migrations == 0 { assert s.obtained == []; }
  }

  lemma StoreKeeps(s: State, p: nat)
    requires Inv(s) && Enabled(s, Store(p))
    ensures Inv(Step(s, Store(p)))
  {
    assert Inside(s.calls[p]) && s.gate == Some(p) && BeingStored(s);
  }

  /** Time, clearing and migrations, which no call takes part in. */
  lemma AmbientKeeps(s: State, e: Event)
    requires Inv(s) && Enabled(s, e) && (e.Tick? || e.Clear? || e.Migrate?)
    ensures Inv(Step(s, e))
  {
  }

  /** A call up to the decision to obtain a session. */
  lemma ApproachKeeps(s: State, e: Event)
    requires Inv(s) && Enabled(s, e) && (e.Call? || e.Check? || e.Acquire? || e.Recheck?)
    ensures Inv(Step(s, e))
  {
  }

  lemma StepKeeps(s: State, e: Event)
    requires Inv(s) && Enabled(s, e)
    ensures Inv(Step(s, e))
  {
    match e
    case Tick(_) => AmbientKeeps(s, e);
    case Clear => AmbientKeeps(s, e);
    case Migrate(_) => AmbientKeeps(s, e);
    case Handshake(_, _) => ObtainKeeps(s, e);
    case LoadPersisted(_, _) => ObtainKeeps(s, e);
    case Store(p) => StoreKeeps(s, p);
    case _ => ApproachKeeps(s, e);
  }

  lemma {:induction false} RunKeeps(now: int, run: seq<Event>)
    requires Possible(Cold(now), run)
    ensures Inv(After(Cold(now), run))
  {
    if run != [] {
      RunKeeps(now, run[..|run| - 1]);
      StepKeeps(After(Cold(now), run[..|run| - 1]), run[|run| - 1]);
    }
  }

  /**
   Any number of concurrent calls, forced or not, from a cold cache, with or without a
   session persisted on disk: one session is obtained for each usable one that is lost,
   and one more, or two more beside a migration. While nothing is lost and nobody
   migrates there is one, and every call that succeeds returns it.
   */
  lemma SingleFlight(now: int, run: seq<Event>, p: nat, q: nat)
    requires Possible(Cold(now), run)
    ensures var s := After(Cold(now), run);
            && s.handshakes <= |s.obtained| <= s.losses + (if s.migrations == 0 then 1 else 2)
            && (s.losses == 0 && s.migrations == 0 && p in s.calls && q in s.calls && s.calls[p].Done? && s.calls[q].Done? ==>
                  s.calls[p].session == s.calls[q].session && s.obtained == [s.calls[p].session])
  {
    RunKeeps(now, run);
    var s := After(Cold(now), run);
    if s.losses == 0 && s.migrations == 0 && p in s.calls && q in s.calls && s.calls[p].Done? && s.calls[q].Done? {
      assert [s.calls[p].session] == s.obtained == [s.calls[q].session];
      assert [s.calls[p].session][0] == [s.calls[q].session][0];
    }
  }

  // ----- What a call returns -------------------------------------------------

  /** A session that may still be presented: more than a second from its expiry, and not yet due for a refresh. */
  predicate Current(session: Session, now: int) { now + SECOND < session.expiresAt && now < session.refreshAt }

  /** The step that gave the call its session: its own handshake, or a session current by then, cached or persisted. */
  ghost predicate Gives(s: State, e: Event, p: nat, session: Session) {
    || e == Handshake(p, Some(session))
    || (Current(session, s.now) && e == LoadPersisted(p, session))
    || (Current(session, s.now) && s.cached == Some(session) && (e == Check(p) || e == Recheck(p)))
  }

  /** A call looks first: it returns the cached session at once exactly when that is current and no refresh was asked for. */
  lemma CallTakesCurrent(s: State, p: nat, force: bool)
    requires Enabled(s, Call(p, force))
    ensures var s1 := Step(s, Call(p, force));
            && Enabled(s1, Check(p))
            && (Step(s1, Check(p)).calls[p].Done? <==> !force && s.cached.Some? && Current(s.cached.value, s.now))
            && (Step(s1, Check(p)).calls[p].Done? ==> s.cached == Some(Step(s1, Check(p)).calls[p].session))
  {
  }

  ghost predicate Has(s: State, p: nat, session: Session) {
    p in s.calls && (s.calls[p] == Done(session) || s.calls[p] == Storing(session))
  }

  ghost predicate GivenAt(now: int, run: seq<Event>, i: nat, p: nat, session: Session) {
    i < |run| && Possible(Cold(now), run[..i]) && Gives(After(Cold(now), run[..i]), run[i], p, session)
  }

  lemma StepGives(s: State, e: Event, p: nat, session: Session)
    requires Enabled(s, e) && !Has(s, p, session) && Has(Step(s, e), p, session)
    ensures Gives(s, e, p, session)
  {
  }

  /** Whatever a call returns, in any run, was its own or was current when the call took it. */
  lemma {:induction false} ReturnedWasCurrent(now: int, run: seq<Event>, p: nat, session: Session) returns (i: nat)
    requires Possible(Cold(now), run) && Has(After(Cold(now), run), p, session)
    ensures GivenAt(now, run, i, p, session)
  {
    var init, e := run[..|run| - 1], run[|run| - 1];
    var s := After(Cold(now), init);
    if Has(s, p, session) {
      i := ReturnedWasCurrent(now, init, p, session);
      assert run[..i] == init[..i];
    } else {
      i := |run| - 1;
      StepGives(s, e, p, session);
    }
  }
}
