/**
 Write-once installation of the client certificate, as a step machine.

 Any number of processes load or create the material in one directory. Each stat,
 read, staged write and rename is a step; processes crash and operations fail at
 any point. A rename fails when its target exists. Nobody else removes material,
 and the machine itself does not lose an unflushed rename.
 */
module ClientCertificate {
  import opened Common

  /** The directory as found: either file may be missing, and files need not belong together. */
  datatype Directory = Directory(cert: Option<nat>, key: Option<nat>)

  /**
   Where a call stands. `minted` is None during the first load, and after the
   creation path whether this call installed what it is about to read.
   */
  datatype Phase =
    | Begin(minted: Option<bool>)
    | SawCert(minted: Option<bool>, present: bool)
    | Reading(minted: Option<bool>)
    | ReadCert(minted: Option<bool>, cert: nat)
    | Staging(material: nat)
    | StagedCert(material: nat)
    | StagedBoth(material: nat)
    | LostRace
    | LostSawCert
    | Returned(cert: nat, created: bool)
    | Incomplete
    | Failed

  datatype State = State(installed: Option<Directory>, calls: map<nat, Phase>, next: nat)

  datatype Event = Start(p: nat) | Advance(p: nat) | Fault(p: nat) | Crash(p: nat)

  function CertOf(installed: Option<Directory>): Option<nat> { if installed.Some? then installed.value.cert else None }
  function KeyOf(installed: Option<Directory>): Option<nat> { if installed.Some? then installed.value.key else None }

  predicate Over(phase: Phase) { phase.Returned? || phase.Incomplete? || phase.Failed? }

  predicate Enabled(s: State, e: Event) {
    match e
    case Start(p) => p !in s.calls
    case Advance(p) => p in s.calls && !Over(s.calls[p])
    case Fault(p) => p in s.calls && !Over(s.calls[p])
    case Crash(p) => p in s.calls && !Over(s.calls[p])
  }

  /** The second stat decides: mint only when neither file is there, and only on the first load. */
  function AfterStats(minted: Option<bool>, cert: bool, key: bool, next: nat): Phase {
    if cert && key then Reading(minted)
    else if cert || key then Incomplete
    else if minted.None? then Staging(next)
    else Failed
  }

  function NextPhase(s: State, phase: Phase): Phase
    requires !Over(phase)
  {
    match phase
    case Begin(minted) => SawCert(minted, CertOf(s.installed).Some?)
    case SawCert(minted, present) => AfterStats(minted, present, KeyOf(s.installed).Some?, s.next)
    case Reading(minted) => if CertOf(s.installed).Some? then ReadCert(minted, CertOf(s.installed).value) else Failed
    case ReadCert(minted, cert) =>
      if KeyOf(s.installed) == Some(cert) then Returned(cert, minted == Some(true)) else Failed
    case Staging(m) => StagedCert(m)
    case StagedCert(m) => StagedBoth(m)
    case StagedBoth(m) => if s.installed.None? then Begin(Some(true)) else LostRace
    case LostRace => if CertOf(s.installed).Some? then LostSawCert else Failed
    case LostSawCert => if KeyOf(s.installed).Some? then Begin(Some(false)) else Failed
  }

  /** The one write anybody makes to the shared directory. */
  function NextInstalled(s: State, phase: Phase): Option<Directory> {
    if phase.StagedBoth? && s.installed.None? then Some(Directory(Some(phase.material), Some(phase.material)))
    else s.installed
  }

  function Step(s: State, e: Event): State
    requires Enabled(s, e)
  {
    match e
    case Start(p) => s.(calls := s.calls[p := Begin(None)])
    case Advance(p) =>
      var phase := s.calls[p];
      State(NextInstalled(s, phase), s.calls[p := NextPhase(s, phase)], s.next + 1)
    case Fault(p) => s.(calls := s.calls[p := Failed])
    case Crash(p) => s.(calls := s.calls[p := Failed])
  }

  ghost predicate Possible(s: State, run: seq<Event>)
    decreases |run|, 0
  {
    run == [] || (Possible(s, run[..|run| - 1]) && Enabled(After(s, run[..|run| - 1]), run[|run| - 1]))
  }

  ghost function After(s: State, run: seq<Event>): State
    requires Possible(s, run)
    decreases |run|, 1
  {
    if run == [] then s else Step(After(s, run[..|run| - 1]), run[|run| - 1])
  }

  /** Any directory content, no call under way, fresh material still to come. */
  ghost predicate Initial(s: State) {
    && s.calls == map[]
    && (forall m :: CertOf(s.installed) == Some(m) || KeyOf(s.installed) == Some(m) ==> m < s.next)
  }

  // ----- The invariant -------------------------------------------------------

  /** This call performed the rename. */
  predicate Installer(phase: Phase) {
    match phase
    case Begin(minted) => minted == Some(true)
    case SawCert(minted, _) => minted == Some(true)
    case Reading(minted) => minted == Some(true)
    case ReadCert(minted, _) => minted == Some(true)
    case Returned(_, created) => created
    case _ => false
  }

  predicate Staged(phase: Phase) { phase.Staging? || phase.StagedCert? || phase.StagedBoth? }

  /** What a call may rely on about the directory. */
  predicate PhaseOk(s: State, phase: Phase) {
    && (Installer(phase) ==> s.installed.Some? && s.installed.value.cert.Some? && s.installed.value.cert == s.installed.value.key)
    && (phase.ReadCert? ==> CertOf(s.installed) == Some(phase.cert))
    && (phase.Returned? ==> s.installed == Some(Directory(Some(phase.cert), Some(phase.cert))))
    && (Staged(phase) ==> phase.material < s.next)
  }

  ghost predicate Inv(s: State) {
    && (forall p :: p in s.calls ==> PhaseOk(s, s.calls[p]))
    && (forall p, q :: p in s.calls && q in s.calls && Installer(s.calls[p]) && Installer(s.calls[q]) ==> p == q)
    && (s.installed.None? ==> forall p :: p in s.calls ==> !Installer(s.calls[p]))
  }

  /** What is installed stays exactly as it is. */
  lemma InstalledNeverChanges(s: State, e: Event)
    requires Enabled(s, e) && s.installed.Some?
    ensures Step(s, e).installed == s.installed
  {
  }

  lemma InstallerStays(s: State, phase: Phase)
    requires !Over(phase)
    ensures Installer(NextPhase(s, phase)) ==> Installer(phase) || (phase.StagedBoth? && s.installed.None?)
  {
  }

  lemma NextPhaseOk(s: State, phase: Phase)
    requires !Over(phase) && PhaseOk(s, phase)
    ensures PhaseOk(State(NextInstalled(s, phase), s.calls, s.next + 1), NextPhase(s, phase))
  {
  }

  lemma StepKeeps(s: State, e: Event)
    requires Inv(s) && Enabled(s, e)
    ensures Inv(Step(s, e))
  {
    var s' := Step(s, e);
    if e.Advance? {
      NextPhaseOk(s, s.calls[e.p]);
      InstallerStays(s, s.calls[e.p]);
    }
    forall p | p in s'.calls ensures PhaseOk(s', s'.calls[p]) {
      assert p != e.p ==> p in s.calls && PhaseOk(s, s.calls[p]);
    }
  }

  lemma {:induction false} RunKeeps(s0: State, run: seq<Event>)
    requires Initial(s0) && Possible(s0, run)
    ensures Inv(After(s0, run)) && (s0.installed.Some? ==> After(s0, run).installed == s0.installed)
  {
    if run != [] {
      RunKeeps(s0, run[..|run| - 1]);
      StepKeeps(After(s0, run[..|run| - 1]), run[|run| - 1]);
    }
  }

  lemma {:induction false} InstalledForGood(s0: State, run: seq<Event>, n: nat)
    requires Possible(s0, run) && n <= |run|
    ensures Possible(s0, run[..n])
    ensures After(s0, run[..n]).installed.Some? ==> After(s0, run).installed == After(s0, run[..n]).installed
    decreases |run|
  {
    if n == |run| {
      assert run[..n] == run;
    } else {
      InstalledForGood(s0, run[..|run| - 1], n);
      assert run[..|run| - 1][..n] == run[..n];
    }
  }

  /**
   In every run, from whatever was in the directory: the material present at any
   earlier moment is still there unchanged, every call that succeeded returned that
   one certificate with its own key, and at most one of them claims to have created it.
   */
  lemma WriteOnce(s0: State, run: seq<Event>, n: nat, p: nat, q: nat)
    requires Initial(s0) && Possible(s0, run) && n <= |run|
    requires Possible(s0, run[..n])
    requires var s := After(s0, run);
             p in s.calls && q in s.calls && s.calls[p].Returned? && s.calls[q].Returned?
    ensures var s := After(s0, run);
            && s.calls[p].cert == s.calls[q].cert
            && s.installed == Some(Directory(Some(s.calls[p].cert), Some(s.calls[p].cert)))
            && (s.calls[p].created && s.calls[q].created ==> p == q)
            && (s0.installed.Some? ==> !s.calls[p].created)
            && (After(s0, run[..n]).installed.Some? ==> After(s0, run[..n]).installed == s.installed)
  {
    RunKeeps(s0, run);
    InstalledForGood(s0, run, n);
    NoInstallerIfPresent(s0, run);
    assert PhaseOk(After(s0, run), After(s0, run).calls[p]) && PhaseOk(After(s0, run), After(s0, run).calls[q]);
  }

  /** Where material was found, nobody installs. */
  lemma {:induction false} NoInstallerIfPresent(s0: State, run: seq<Event>)
    requires Initial(s0) && Possible(s0, run)
    ensures s0.installed.Some? ==> forall p :: p in After(s0, run).calls ==> !Installer(After(s0, run).calls[p])
  {
    if run != [] && s0.installed.Some? {
      var init, e := run[..|run| - 1], run[|run| - 1];
      NoInstallerIfPresent(s0, init);
      RunKeeps(s0, init);
      if e.Advance? { InstallerStays(After(s0, init), After(s0, init).calls[e.p]); }
    }
  }

  // ----- A call that is left alone succeeds ------------------------------------

  function Alone(s: State, p: nat, n: nat): State
    decreases n
  {
    if n == 0 || !Enabled(s, Advance(p)) then s else Alone(Step(s, Advance(p)), p, n - 1)
  }

  /** At most how many steps are left of a call. */
  function Rank(phase: Phase): nat {
    match phase
    case Begin(minted) => if minted.None? then 11 else 4
    case SawCert(minted, present) => if minted.None? && !present then 10 else 3
    case Staging(_) => 9
    case StagedCert(_) => 8
    case StagedBoth(_) => 7
    case LostRace => 6
    case LostSawCert => 5
    case Reading(_) => 2
    case ReadCert(_, _) => 1
    case _ => 0
  }

  /** Every call is over after at most eleven steps of its own, however it goes, and no step of another call touches it. */
  lemma StepsRunOut(s: State, e: Event, p: nat)
    requires Enabled(s, e) && p in s.calls && !Over(s.calls[p])
    ensures Rank(Step(s, e).calls[p]) <= Rank(s.calls[p]) <= 11
    ensures e == Advance(p) ==> Rank(Step(s, e).calls[p]) < Rank(s.calls[p])
    ensures e == Fault(p) || e == Crash(p) ==> Over(Step(s, e).calls[p])
    ensures e.p != p ==> Step(s, e).calls[p] == s.calls[p]
    ensures Rank(s.calls[p]) > 0
  {
  }

  /** Nothing in the directory, or material whose two halves belong together. */
  predicate Sound(installed: Option<Directory>) {
    installed.Some? ==> installed.value.cert.Some? && installed.value.cert == installed.value.key
  }

  /** What the call has seen so far is still so, and what it lost against or installed is there. */
  predicate Fits(s: State, phase: Phase) {
    && !Over(phase) && PhaseOk(s, phase)
    && (phase.SawCert? ==> phase.present == s.installed.Some?)
    && (phase.LostRace? || phase.LostSawCert? || phase.Reading? || phase.ReadCert? ==> s.installed.Some?)
    && ((phase.Begin? || phase.SawCert?) && phase.minted.Some? ==> s.installed.Some?)
  }

  /**
   Without a fault, and with nobody else in between, a call succeeds: with the installed
   certificate, as its creator exactly when it was the one to install it.
   */
  lemma {:induction false} LoneCallSucceeds(s: State, p: nat) returns (n: nat)
    requires p in s.calls && Fits(s, s.calls[p]) && Sound(s.installed)
    ensures n <= Rank(s.calls[p])
    ensures var end := Alone(s, p, n);
            && p in end.calls && end.calls[p].Returned?
            && end.calls[p].created == (s.installed.None? || Installer(s.calls[p]))
            && (s.installed.Some? ==> Some(end.calls[p].cert) == s.installed.value.cert)
    decreases Rank(s.calls[p])
  {
    var s' := Step(s, Advance(p));
    n := 1;
    if !Over(s'.calls[p]) {
      var rest := LoneCallSucceeds(s', p);
      n := rest + 1;
    } else {
      assert Alone(s', p, 0) == s';
    }
  }

  // ----- A racing loader may still fail --------------------------------------

  /**
   Two separate stats: a call that looked for the certificate before another call's
   rename, and for the key after it, reports the material as incomplete.
   */
  lemma RacingLoaderReportsIncomplete(p: nat, q: nat)
    requires p != q
    ensures exists run :: Possible(State(None, map[], 0), run) && p in After(State(None, map[], 0), run).calls
              && After(State(None, map[], 0), run).calls[p] == Incomplete
  {
    var s0 := State(None, map[], 0);
    var s := State(None, map[p := SawCert(None, false), q := StagedBoth(2)], 5);
    var run := RacePrefix(p, q);
    Extend(s0, run, Advance(q));
    Extend(s0, run + [Advance(q)], Advance(p));
  }

  lemma Extend(s0: State, run: seq<Event>, e: Event)
    requires Possible(s0, run) && Enabled(After(s0, run), e)
    ensures Possible(s0, run + [e]) && After(s0, run + [e]) == Step(After(s0, run), e)
  {
    assert (run + [e])[..|run|] == run && (run + [e])[|run|] == e;
  }

  ghost predicate Reaches(run: seq<Event>, s: State) {
    Possible(State(None, map[], 0), run) && After(State(None, map[], 0), run) == s
  }

  lemma Reach(run: seq<Event>, s: State, e: Event, s': State) returns (run': seq<Event>)
    requires Reaches(run, s) && Enabled(s, e) && s' == Step(s, e)
    ensures Reaches(run', s')
  {
    Extend(State(None, map[], 0), run, e);
    run' := run + [e];
  }

  lemma BothLook(p: nat, q: nat) returns (run: seq<Event>)
    requires p != q
    ensures Reaches(run, State(None, map[p := SawCert(None, false), q := SawCert(None, false)], 2))
  {
    run := [];
    var s1 := State(None, map[p := Begin(None)], 0);
    run := Reach(run, State(None, map[], 0), Start(p), s1);
    var s2 := State(None, map[p := Begin(None), q := Begin(None)], 0);
    run := Reach(run, s1, Start(q), s2);
    var s3 := State(None, map[p := SawCert(None, false), q := Begin(None)], 1);
    run := Reach(run, s2, Advance(p), s3);
    run := Reach(run, s3, Advance(q), State(None, map[p := SawCert(None, false), q := SawCert(None, false)], 2));
  }

  lemma RacePrefix(p: nat, q: nat) returns (run: seq<Event>)
    requires p != q
    ensures Reaches(run, State(None, map[p := SawCert(None, false), q := StagedBoth(2)], 5))
  {
    run := BothLook(p, q);
    var looked := SawCert(None, false);
    var s4 := State(None, map[p := looked, q := looked], 2);
    var s5 := State(None, map[p := looked, q := Staging(2)], 3);
    run := Reach(run, s4, Advance(q), s5);
    var s6 := State(None, map[p := looked, q := StagedCert(2)], 4);
    run := Reach(run, s5, Advance(q), s6);
    run := Reach(run, s6, Advance(q), State(None, map[p := looked, q := StagedBoth(2)], 5));
  }

  ghost predicate Complete(s: State) {
    && (s.installed.Some? ==> s.installed.value.cert.Some? && s.installed.value.key.Some?)
    && (forall p :: p in s.calls && s.calls[p].SawCert? && s.calls[p].present ==> s.installed.Some?)
  }

  lemma {:induction false} StaysComplete(s0: State, run: seq<Event>)
    requires Initial(s0) && Complete(s0) && Possible(s0, run)
    ensures Complete(After(s0, run))
  {
    if run != [] { StaysComplete(s0, run[..|run| - 1]); }
  }

  /**
   Unless incomplete material was there to begin with, that race is the only way: the
   call had missed the certificate, and by the second stat both files were there.
   */
  lemma IncompleteOnlyByRace(s0: State, run: seq<Event>, p: nat)
    requires Initial(s0) && Complete(s0)
    requires Possible(s0, run) && Enabled(After(s0, run), Advance(p))
    requires Step(After(s0, run), Advance(p)).calls[p] == Incomplete
    ensures var s := After(s0, run);
            s.installed.Some? && Complete(s) && s.calls[p].SawCert? && !s.calls[p].present
  {
    StaysComplete(s0, run);
  }
}
