/**
 The in-flight meter of backward acknowledgement hops.

 `Meter` is the map under its mutex. The machine below interleaves any number of
 transit calls, whose provenance lookups, decisions and emissions end in any way.
 */
module TransitMeter {

  const MAX_RELAY_INGESTS_PER_PEER := 8

  /** The value in force; everything below holds for any other derived limit as well. */
  const MAX_TRANSITS_PER_UPSTREAM := MAX_RELAY_INGESTS_PER_PEER / 2

  /** A derived limit never refuses everything. */
  function Limit(derived: int): (limit: nat)
    ensures limit >= 1 && limit >= derived && (limit == derived || limit == 1)
  {
    if derived < 1 then 1 else derived
  }

  function LowerChar(c: char): char { if 'A' <= c <= 'Z' then c + 32 as char else c }

  /** Bus ids differ in case only by accident. */
  function Lower(s: string): (r: string)
    ensures |r| == |s| && forall i :: 0 <= i < |s| ==> r[i] == LowerChar(s[i])
  {
    seq(|s|, i requires 0 <= i < |s| => LowerChar(s[i]))
  }

  type Counts = map<string, nat>

  function CountOf(m: Counts, key: string): nat { if key in m then m[key] else 0 }

  function Entered(m: Counts, key: string): Counts { m[key := CountOf(m, key) + 1] }

  /** An upstream with nothing in flight holds no entry. */
  function Released(m: Counts, key: string): Counts {
    if CountOf(m, key) > 1 then m[key := CountOf(m, key) - 1] else m - {key}
  }

  ghost predicate Positive(m: Counts) { forall k :: k in m ==> m[k] > 0 }

  /** A slot taken and given back leaves no trace. */
  lemma EnterThenRelease(m: Counts, key: string)
    requires Positive(m)
    ensures Released(Entered(m, key), key) == m
  {
    if key in m {
      assert Released(Entered(m, key), key)[key] == m[key];
    } else {
      assert (m[key := 1] - {key}).Keys == m.Keys;
    }
  }

  /** How the steps before the meter end: nothing retained, no upstream, our own message, or one hop on. */
  datatype Decision = Unresolved | NoUpstream | AtOrigin | Forward(upstream: string)

  datatype Result = Stopped | Saturated | Emitted(ok: bool)

  class Meter {
    const derived: int
    var inFlight: Counts

    ghost predicate Valid() reads this { Positive(inFlight) }

    constructor (derived: int)
      ensures Valid() && inFlight == map[] && this.derived == derived
    {
      this.derived := derived;
      inFlight := map[];
    }

    method EnterUpstream(upstream: string) returns (entered: bool)
      requires Valid()
      modifies this
      ensures Valid()
      ensures entered <==> CountOf(old(inFlight), Lower(upstream)) < Limit(derived)
      ensures inFlight == if entered then Entered(old(inFlight), Lower(upstream)) else old(inFlight)
    {
      var key := Lower(upstream);
      var n := if key in inFlight then inFlight[key] else 0;
      if n >= Limit(derived) { return false; }
      inFlight := inFlight[key := n + 1];
      return true;
    }

    method Release(upstream: string)
      requires Valid()
      modifies this
      ensures Valid() && inFlight == Released(old(inFlight), Lower(upstream))
    {
      var key := Lower(upstream);
      if key in inFlight && inFlight[key] > 1 {
        inFlight := inFlight[key := inFlight[key] - 1];
        return;
      }
      inFlight := inFlight - {key};
    }

    /** One call on its own: on every path the meter ends as it began, and nothing is emitted past the limit. */
    method TransitAck(decision: Decision, accepted: bool) returns (r: Result)
      requires Valid()
      modifies this
      ensures Valid() && inFlight == old(inFlight)
      ensures r.Emitted? <==> decision.Forward? && CountOf(old(inFlight), Lower(decision.upstream)) < Limit(derived)
      ensures r.Saturated? <==> decision.Forward? && CountOf(old(inFlight), Lower(decision.upstream)) >= Limit(derived)
    {
      if !decision.Forward? { return Stopped; }
      var entered := EnterUpstream(decision.upstream);
      if !entered { return Saturated; }
      r := Emitted(accepted);
      EnterThenRelease(old(inFlight), Lower(decision.upstream));
      Release(decision.upstream);
    }
  }

  // ----- All interleavings ---------------------------------------------------

  datatype Phase =
    | Deciding
    | Metering(upstream: string)
    | Emitting(upstream: string)       // inside the propagator, holding a slot
    | Releasing(upstream: string)      // done there, the deferred release still to run
    | Over

  datatype State = State(
    derived: int,
    inFlight: Counts,
    calls: map<nat, Phase>,
    emissions: map<nat, nat>,
    releases: map<nat, nat>)

  datatype Event = Call(p: nat) | Decide(p: nat, decision: Decision) | Enter(p: nat) | Finish(p: nat) | Release(p: nat)

  predicate Enabled(s: State, e: Event) {
    match e
    case Call(p) => p !in s.calls
    case Decide(p, _) => p in s.calls && s.calls[p].Deciding?
    case Enter(p) => p in s.calls && s.calls[p].Metering?
    case Finish(p) => p in s.calls && s.calls[p].Emitting?
    case Release(p) => p in s.calls && s.calls[p].Releasing?
  }

  function Tally(m: map<nat, nat>, p: nat): nat { if p in m then m[p] else 0 }

  function Step(s: State, e: Event): State
    requires Enabled(s, e)
  {
    match e
    case Call(p) => s.(calls := s.calls[p := Deciding])
    case Decide(p, decision) =>
      s.(calls := s.calls[p := if decision.Forward? then Metering(decision.upstream) else Over])
    case Enter(p) =>
      var upstream := s.calls[p].upstream;
      if CountOf(s.inFlight, Lower(upstream)) >= Limit(s.derived) then s.(calls := s.calls[p := Over])
      else s.(inFlight := Entered(s.inFlight, Lower(upstream)), calls := s.calls[p := Emitting(upstream)],
              emissions := s.emissions[p := Tally(s.emissions, p) + 1])
    case Finish(p) => s.(calls := s.calls[p := Releasing(s.calls[p].upstream)])
    case Release(p) =>
      s.(inFlight := Released(s.inFlight, Lower(s.calls[p].upstream)), calls := s.calls[p := Over],
         releases := s.releases[p := Tally(s.releases, p) + 1])
  }

  ghost predicate Possible(s: State, run: seq<Event>)
    decreases |run|, 0
  {
    run == [] || (Possible(s, run[..|run| - 1]) && Enabled(After(s, run[..|run| - 1]), run[|run| - 1]))
  }

  ghost function After(s: State, run: seq<Event>): State
    requires Possible(s, run)
    decreases |run|, 1
  {
    if run == [] then s else Step(After(s, run[..|run| - 1]), run[|run| - 1])
  }

  function Start(derived: int): State { State(derived, map[], map[], map[], map[]) }

  predicate Holds(phase: Phase, key: string) {
    (phase.Emitting? || phase.Releasing?) && Lower(phase.upstream) == key
  }

  /** The calls that hold a slot toward `key`. */
  ghost function Slots(calls: map<nat, Phase>, key: string): set<nat> {
    set p | p in calls && Holds(calls[p], key)
  }

  ghost predicate Accounted(s: State) {
    forall key :: CountOf(s.inFlight, key) == |Slots(s.calls, key)| <= Limit(s.derived)
  }

  /** Each call emits at most once, and then releases exactly once. */
  ghost predicate Paired(s: State) {
    && (forall p :: p !in s.calls ==> Tally(s.emissions, p) == Tally(s.releases, p) == 0)
    && (forall p :: p in s.calls ==>
          match s.calls[p]
          case Deciding => Tally(s.emissions, p) == Tally(s.releases, p) == 0
          case Metering(_) => Tally(s.emissions, p) == Tally(s.releases, p) == 0
          case Over => Tally(s.emissions, p) == Tally(s.releases, p) <= 1
          case _ => Tally(s.emissions, p) == 1 && Tally(s.releases, p) == 0)
  }

  ghost predicate Inv(s: State) { Positive(s.inFlight) && Accounted(s) && Paired(s) }

  lemma SlotsOf(calls: map<nat, Phase>, p: nat, phase: Phase, key: string)
    ensures Slots(calls[p := phase], key) == (Slots(calls, key) - {p}) + (if Holds(phase, key) then {p} else {})
  {
  }

  /** A call that moves to another phase changes the slots by at most itself. */
  lemma SlotsMoved(calls: map<nat, Phase>, p: nat, phase: Phase, key: string)
    ensures var held := p in calls && Holds(calls[p], key);
            |Slots(calls[p := phase], key)| ==
            |Slots(calls, key)| - (if held then 1 else 0) + (if Holds(phase, key) then 1 else 0)
  {
    SlotsOf(calls, p, phase, key);
    assert p in Slots(calls, key) <==> p in calls && Holds(calls[p], key);
  }

  lemma AccountedStep(s: State, e: Event)
    requires Accounted(s) && Positive(s.inFlight) && Enabled(s, e)
    ensures Accounted(Step(s, e)) && Positive(Step(s, e).inFlight)
  {
    var s' := Step(s, e);
    assert s'.calls == s.calls[e.p := s'.calls[e.p]];
    forall key ensures CountOf(s'.inFlight, key) == |Slots(s'.calls, key)| <= Limit(s.derived) {
      assert CountOf(s.inFlight, key) == |Slots(s.calls, key)| <= Limit(s.derived);
      SlotsMoved(s.calls, e.p, s'.calls[e.p], key);
    }
  }

  lemma PairedStep(s: State, e: Event)
    requires Paired(s) && Enabled(s, e)
    ensures Paired(Step(s, e))
  {
  }

  lemma StepKeeps(s: State, e: Event)
    requires Inv(s) && Enabled(s, e)
    ensures Inv(Step(s, e))
  {
    AccountedStep(s, e);
    PairedStep(s, e);
  }

  lemma {:induction false} RunKeeps(derived: int, run: seq<Event>)
    requires Possible(Start(derived), run)
    ensures Inv(After(Start(derived), run)) && After(Start(derived), run).derived == derived
  {
    if run == [] {
      assert forall key :: Slots(map[], key) == {};
    } else {
      RunKeeps(derived, run[..|run| - 1]);
      StepKeeps(After(Start(derived), run[..|run| - 1]), run[|run| - 1]);
    }
  }

  /**
   In every interleaving: the count toward an upstream, however its id is spelt, is
   the number of calls that hold a slot there, never above the limit; a call that
   emitted releases exactly once; an idle meter is empty.
   */
  lemma MeterIsExact(derived: int, run: seq<Event>, upstream: string, p: nat)
    requires Possible(Start(derived), run)
    ensures var s := After(Start(derived), run);
            && CountOf(s.inFlight, Lower(upstream)) == |Slots(s.calls, Lower(upstream))| <= Limit(derived)
            && (p in s.calls && s.calls[p].Over? ==> Tally(s.emissions, p) == Tally(s.releases, p) <= 1)
            && ((forall q :: q in s.calls ==> !s.calls[q].Emitting? && !s.calls[q].Releasing?) ==> s.inFlight == map[])
  {
    RunKeeps(derived, run);
    var s := After(Start(derived), run);
    if forall q :: q in s.calls ==> !s.calls[q].Emitting? && !s.calls[q].Releasing? {
      forall key ensures key !in s.inFlight {
        assert Slots(s.calls, key) == {};
        assert CountOf(s.inFlight, key) == 0;
      }
      assert s.inFlight.Keys == {};
    }
  }

  /**
   In every interleaving, a step makes a call emit exactly when the call asks for a slot
   while fewer than the limit hold one toward its upstream; from then on it is counted.
   */
  lemma EmissionIsCounted(derived: int, run: seq<Event>, s: State, e: Event, p: nat)
    requires Possible(Start(derived), run) && s == After(Start(derived), run) && Enabled(s, e)
    ensures var s', m := Step(s, e), Tally(s.emissions, p);
            var emits := e == Enter(p) && |Slots(s.calls, Lower(s.calls[p].upstream))| < Limit(derived);
            && (Tally(s'.emissions, p) != m <==> emits)
            && (emits ==>
                  var key := Lower(s.calls[p].upstream);
                  && s'.calls[p] == Emitting(s.calls[p].upstream)
                  && CountOf(s'.inFlight, key) == CountOf(s.inFlight, key) + 1 <= Limit(derived)
                  && p !in Slots(s.calls, key) && p in Slots(s'.calls, key))
  {
    RunKeeps(derived, run);
    if e == Enter(p) {
      var key := Lower(s.calls[p].upstream);
      assert CountOf(s.inFlight, key) == |Slots(s.calls, key)|;
    }
  }

  /** A call on its own, step by step: it goes through, emits exactly below the limit, and leaves the meter as it was. */
  lemma LoneCallGoesThrough(s: State, p: nat, decision: Decision)
    requires p !in s.calls && Positive(s.inFlight)
    ensures var s2 := Step(Step(s, Call(p)), Decide(p, decision));
            if !decision.Forward? then s2.calls[p].Over? && s2.inFlight == s.inFlight && s2.emissions == s.emissions
            else
              Enabled(s2, Enter(p)) &&
              var s3 := Step(s2, Enter(p));
              if CountOf(s.inFlight, Lower(decision.upstream)) >= Limit(s.derived) then
                s3.calls[p].Over? && s3.inFlight == s.inFlight && s3.emissions == s.emissions
              else
                Enabled(s3, Finish(p)) && Enabled(Step(s3, Finish(p)), Release(p)) &&
                var s5 := Step(Step(s3, Finish(p)), Release(p));
                && s5.calls[p].Over? && s5.inFlight == s.inFlight
                && Tally(s5.emissions, p) == Tally(s.emissions, p) + 1 && Tally(s5.releases, p) == Tally(s.releases, p) + 1
  {
    if decision.Forward? { EnterThenRelease(s.inFlight, Lower(decision.upstream)); }
  }
}
