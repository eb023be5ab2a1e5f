/**
 Saving a document by a temporary file, a flush, a rename and a directory flush,
 over a disk whose live and durable contents differ.

 Both documents of the store live in one directory and are saved under different
 locks, so two saves interleave. The kernel may write back any directory entry at
 any time, and any dirty file with arbitrary content; the system may crash
 between any two steps.
 */
module AtomicSave {
  import opened Common

  datatype File = Identities | Cursors {
    function Other(): File { if this == Identities then Cursors else Identities }
  }

  /** The directory entries of one document: itself, and its temporary files. */
  datatype Entry = Target(f: File) | Temp(f: File, suffix: string)

  function Name(f: File): string {
    match f
    case Identities => "identities.json"
    case Cursors => "cursors.json"
  }

  function Spelling(entry: Entry): string {
    match entry
    case Target(f) => Name(f)
    case Temp(f, suffix) => Name(f) + ".tmp-" + suffix
  }

  /** What the sweep's pattern `<name>.tmp-*` matches. */
  predicate Swept(f: File, entry: Entry) { Name(f) + ".tmp-" <= Spelling(entry) }

  /** The two documents' patterns are disjoint, and neither matches a document. */
  lemma SweptExactly(f: File, entry: Entry)
    ensures Swept(f, entry) <==> entry.Temp? && entry.f == f
  {
    var pattern, name := Name(f) + ".tmp-", Spelling(entry);
    assert pattern[0] == Name(f)[0] && name[0] == Name(entry.f)[0];
    assert entry.Temp? && entry.f == f ==> name == pattern + entry.suffix;
    assert entry.f != f ==> pattern[0] != name[0];
    assert pattern <= name ==> pattern[0] == name[0];
  }

  lemma SpellingInjective(a: Entry, b: Entry)
    requires Spelling(a) == Spelling(b)
    ensures a == b
  {
    assert Spelling(a)[0] == Name(a.f)[0] && Spelling(b)[0] == Name(b.f)[0];
    if a.Temp? && b.Temp? {
      assert Spelling(a)[|Name(a.f)| + 5..] == a.suffix && Spelling(b)[|Name(b.f)| + 5..] == b.suffix;
    }
  }

  datatype Disk = Disk(dir: map<Entry, nat>, data: map<nat, string>) {
    function Read(name: Entry): Option<string> {
      if name in dir && dir[name] in data then Some(data[dir[name]]) else None
    }
  }

  /** The directory and the files as processes see them, and as a crash would leave them. */
  datatype Disks = Disks(live: Disk, durable: Disk, next: nat)

  datatype Writer =
    | Idle
    | Writing(tmp: Entry, inode: nat, doc: string)
    | Written(tmp: Entry, inode: nat, doc: string)
    | Flushed(tmp: Entry, inode: nat, doc: string)
    | Renamed

  /**
   Per document: the writer under its lock, the contents ever installed (None: no
   file), which of them the durable directory names, and the last one a successful
   directory flush promised.
   */
  datatype Document = Document(writer: Writer, installed: seq<Option<string>>, durable: nat, promised: nat)

  /** The steps of one save, and the ways to leave it. */
  datatype Action =
    | Sweep
    | Create(suffix: string, doc: string)
    | WriteSome(written: nat)
    | WriteAll
    | Flush
    | Rename
    | Fail
    | Stop

  datatype Event =
    | Does(f: File, action: Action)
    | FlushDirectory(f: File)
    | WriteBackEntry(name: Entry)
    | WriteBackData(inode: nat, content: string)
    | Crash

  datatype State = State(disks: Disks, identities: Document, cursors: Document) {
    function Of(f: File): Document { if f == Identities then identities else cursors }
    function With(f: File, disks: Disks, d: Document): State {
      if f == Identities then State(disks, d, cursors) else State(disks, identities, d)
    }
  }

  predicate Staged(w: Writer) { w.Writing? || w.Written? || w.Flushed? }

  predicate CanAct(k: Disks, f: File, w: Writer, a: Action) {
    match a
    case Sweep => w.Idle?
    case Create(suffix, doc) => w.Idle? && Temp(f, suffix) !in k.live.dir
    case WriteSome(written) => w.Writing? && written <= |w.doc|
    case WriteAll => w.Writing?
    case Flush => w.Written?
    case Rename => w.Flushed? && w.tmp in k.live.dir
    case Fail => Staged(w)
    case Stop => true
  }

  function Write(k: Disks, inode: nat, content: string): Disks {
    k.(live := k.live.(data := k.live.data[inode := content]))
  }

  function NextDisks(k: Disks, f: File, w: Writer, a: Action): Disks
    requires CanAct(k, f, w, a)
  {
    match a
    case Sweep => k.(live := k.live.(dir := map n | n in k.live.dir && !Swept(f, n) :: k.live.dir[n]))
    case Create(suffix, doc) =>
      Disks(Disk(k.live.dir[Temp(f, suffix) := k.next], k.live.data[k.next := ""]),
            k.durable.(data := k.durable.data[k.next := ""]),
            k.next + 1)
    case WriteSome(written) => Write(k, w.inode, w.doc[..written])
    case WriteAll => Write(k, w.inode, w.doc)
    case Flush => k.(durable := k.durable.(data := k.durable.data[w.inode := w.doc]))
    case Rename => k.(live := k.live.(dir := k.live.dir[Target(f) := k.live.dir[w.tmp]] - {w.tmp}))
    case Fail => k.(live := k.live.(dir := k.live.dir - {w.tmp}))
    case Stop => k
  }

  function NextWriter(k: Disks, f: File, w: Writer, a: Action): Writer
    requires CanAct(k, f, w, a)
  {
    match a
    case Sweep => w
    case Create(suffix, doc) => Writing(Temp(f, suffix), k.next, doc)
    case WriteSome(_) => w
    case WriteAll => Written(w.tmp, w.inode, w.doc)
    case Flush => Flushed(w.tmp, w.inode, w.doc)
    case Rename => Renamed
    case Fail => Idle
    case Stop => Idle
  }

  function NextDocument(k: Disks, f: File, d: Document, a: Action): Document
    requires CanAct(k, f, d.writer, a)
  {
    d.(writer := NextWriter(k, f, d.writer, a),
       installed := if a.Rename? then d.installed + [Some(d.writer.doc)] else d.installed)
  }

  /** The durable directory now names the newest content. */
  function Caught(d: Document): Document {
    if d.installed == [] then d else d.(durable := |d.installed| - 1)
  }

  function AfterCrash(d: Document): Document {
    Document(Idle, if d.durable < |d.installed| then d.installed[..d.durable + 1] else d.installed, d.durable, d.promised)
  }

  predicate Enabled(s: State, e: Event) {
    match e
    case Does(f, a) => CanAct(s.disks, f, s.Of(f).writer, a)
    case FlushDirectory(f) => s.Of(f).writer.Renamed?
    case WriteBackEntry(name) => true
    case WriteBackData(inode, content) =>
      // Only a dirty file is ever written back, and then with anything.
      && inode in s.disks.live.data && inode in s.disks.durable.data
      && s.disks.live.data[inode] != s.disks.durable.data[inode]
    case Crash => true
  }

  function EntryWritten(k: Disks, name: Entry): Disks {
    var dir := if name in k.live.dir then k.durable.dir[name := k.live.dir[name]] else k.durable.dir - {name};
    k.(durable := k.durable.(dir := dir))
  }

  function Promised(d: Document): Document { d.(writer := Idle, promised := d.durable) }

  function Step(s: State, e: Event): State
    requires Enabled(s, e)
  {
    match e
    case Does(f, a) => s.With(f, NextDisks(s.disks, f, s.Of(f).writer, a), NextDocument(s.disks, f, s.Of(f), a))
    case FlushDirectory(f) =>
      var k := s.disks.(durable := s.disks.durable.(dir := s.disks.live.dir));
      State(k, Caught(s.identities), Caught(s.cursors)).With(f, k, Promised(Caught(s.Of(f))))
    case WriteBackEntry(name) =>
      var k := EntryWritten(s.disks, name);
      if name.Target? then s.With(name.f, k, Caught(s.Of(name.f))) else s.(disks := k)
    case WriteBackData(inode, content) =>
      s.(disks := s.disks.(durable := s.disks.durable.(data := s.disks.durable.data[inode := content])))
    case Crash =>
      State(Disks(s.disks.durable, s.disks.durable, s.disks.next), AfterCrash(s.identities), AfterCrash(s.cursors))
  }

  // ----- The invariant -------------------------------------------------------

  /** An inode both disks hold alike, which no later creation reuses. */
  ghost predicate Clean(k: Disks, inode: nat) {
    && inode < k.next
    && inode in k.live.data && inode in k.durable.data
    && k.live.data[inode] == k.durable.data[inode]
  }

  predicate Names(disk: Disk, f: File, inode: nat) { Target(f) in disk.dir && disk.dir[Target(f)] == inode }

  /** Some document's entry, live or durable, leads to `inode`. */
  predicate Targets(k: Disks, inode: nat) {
    || Names(k.live, Identities, inode) || Names(k.live, Cursors, inode)
    || Names(k.durable, Identities, inode) || Names(k.durable, Cursors, inode)
  }

  ghost predicate TargetsClean(k: Disks) { forall i :: Targets(k, i) ==> Clean(k, i) }

  ghost predicate WriterOk(k: Disks, f: File, w: Writer) {
    Staged(w) ==>
      && w.tmp.Temp? && w.tmp.f == f && w.tmp in k.live.dir && k.live.dir[w.tmp] == w.inode
      && w.inode < k.next && w.inode in k.live.data && w.inode in k.durable.data
      && !Targets(k, w.inode)
      && (w.Written? ==> k.live.data[w.inode] == w.doc)
      && (w.Flushed? ==> k.live.data[w.inode] == k.durable.data[w.inode] == w.doc)
  }

  ghost predicate ContentsOk(k: Disks, f: File, d: Document) {
    && d.promised <= d.durable < |d.installed|
    && k.live.Read(Target(f)) == d.installed[|d.installed| - 1]
    && k.durable.Read(Target(f)) == d.installed[d.durable]
  }

  ghost predicate Ok(k: Disks, f: File, d: Document) { WriterOk(k, f, d.writer) && ContentsOk(k, f, d) }

  predicate Apart(w: Writer, w': Writer) { Staged(w) && Staged(w') ==> w.inode != w'.inode }

  /** Seen from document `f`; `mine` is its own, `other` the other one. */
  ghost predicate InvFor(k: Disks, f: File, mine: Document, other: Document) {
    TargetsClean(k) && Ok(k, f, mine) && Ok(k, f.Other(), other) && Apart(mine.writer, other.writer)
  }

  ghost predicate Inv(s: State) { InvFor(s.disks, Identities, s.identities, s.cursors) }

  lemma EitherSide(s: State, f: File)
    ensures Inv(s) <==> InvFor(s.disks, f, s.Of(f), s.Of(f.Other()))
  {
  }

  predicate SameTarget(disk: Disk, disk': Disk, f: File) {
    && (Target(f) in disk.dir <==> Target(f) in disk'.dir)
    && (Target(f) in disk.dir ==> disk'.dir[Target(f)] == disk.dir[Target(f)])
  }

  /** Steps that leave both directories' target entries and every clean target alone. */
  ghost predicate TargetsKept(k: Disks, k': Disks) {
    && k.next <= k'.next
    && SameTarget(k.live, k'.live, Identities) && SameTarget(k.live, k'.live, Cursors)
    && SameTarget(k.durable, k'.durable, Identities) && SameTarget(k.durable, k'.durable, Cursors)
    && (forall i :: Targets(k, i) && Clean(k, i) ==> Clean(k', i) && k'.live.data[i] == k.live.data[i])
  }

  lemma KeptTargets(k: Disks, k': Disks, f: File)
    requires TargetsClean(k) && TargetsKept(k, k')
    ensures TargetsClean(k') && forall i :: Targets(k', i) <==> Targets(k, i)
    ensures k'.live.Read(Target(f)) == k.live.Read(Target(f)) && k'.durable.Read(Target(f)) == k.durable.Read(Target(f))
  {
    if Target(f) in k.live.dir { assert Targets(k, k.live.dir[Target(f)]); }
    if Target(f) in k.durable.dir { assert Targets(k, k.durable.dir[Target(f)]); }
  }

  predicate SameFile(data: map<nat, string>, data': map<nat, string>, inode: nat) {
    inode in data ==> inode in data' && data'[inode] == data[inode]
  }

  /** Nothing of the staged file changed. */
  ghost predicate StageKept(k: Disks, k': Disks, w: Writer) {
    Staged(w) && w.tmp in k.live.dir ==>
      && w.tmp in k'.live.dir && k'.live.dir[w.tmp] == k.live.dir[w.tmp]
      && SameFile(k.live.data, k'.live.data, w.inode) && SameFile(k.durable.data, k'.durable.data, w.inode)
  }

  /** A step that leaves the targets and the other writer alone. */
  lemma Assemble(k: Disks, k': Disks, f: File, mine: Document, mine': Document, other: Document)
    requires InvFor(k, f, mine, other) && TargetsKept(k, k') && StageKept(k, k', other.writer)
    requires mine' == mine.(writer := mine'.writer)
    requires WriterOk(k', f, mine'.writer) && Apart(mine'.writer, other.writer)
    ensures InvFor(k', f, mine', other)
  {
    KeptTargets(k, k', f);
    KeptTargets(k, k', f.Other());
  }

  lemma SweepKeeps(k: Disks, f: File, mine: Document, other: Document)
    requires InvFor(k, f, mine, other) && CanAct(k, f, mine.writer, Sweep)
    ensures InvFor(NextDisks(k, f, mine.writer, Sweep), f, mine, other)
  {
    SweepLeaves(k, f, mine.writer);
    Assemble(k, NextDisks(k, f, mine.writer, Sweep), f, mine, mine, other);
  }

  /** A sweep removes the temporary files of its own document and nothing else. */
  lemma SweepLeaves(k: Disks, f: File, w: Writer)
    requires CanAct(k, f, w, Sweep)
    ensures var k' := NextDisks(k, f, w, Sweep);
            && k' == k.(live := k.live.(dir := k'.live.dir))
            && (forall n :: n in k.live.dir && !(n.Temp? && n.f == f) ==> n in k'.live.dir && k'.live.dir[n] == k.live.dir[n])
            && (forall n :: n in k'.live.dir ==> n in k.live.dir && !(n.Temp? && n.f == f))
  {
    forall n ensures Swept(f, n) <==> n.Temp? && n.f == f { SweptExactly(f, n); }
  }

  lemma CreateKept(k: Disks, k': Disks, tmp: Entry, w: Writer)
    requires TargetsClean(k) && tmp.Temp? && tmp !in k.live.dir
    requires Staged(w) ==> w.inode < k.next
    requires k' == Disks(Disk(k.live.dir[tmp := k.next], k.live.data[k.next := ""]),
                         k.durable.(data := k.durable.data[k.next := ""]), k.next + 1)
    ensures TargetsKept(k, k') && StageKept(k, k', w) && !Targets(k', k.next)
  {
    assert Targets(k, k.next) ==> Clean(k, k.next);
  }

  lemma CreateKeeps(k: Disks, k': Disks, f: File, mine: Document, other: Document, suffix: string, doc: string)
    requires InvFor(k, f, mine, other) && Temp(f, suffix) !in k.live.dir
    requires k' == Disks(Disk(k.live.dir[Temp(f, suffix) := k.next], k.live.data[k.next := ""]),
                         k.durable.(data := k.durable.data[k.next := ""]), k.next + 1)
    ensures InvFor(k', f, mine.(writer := Writing(Temp(f, suffix), k.next, doc)), other)
  {
    CreateKept(k, k', Temp(f, suffix), other.writer);
    Assemble(k, k', f, mine, mine.(writer := Writing(Temp(f, suffix), k.next, doc)), other);
  }

  lemma StageKeeps(k: Disks, f: File, mine: Document, other: Document, a: Action)
    requires InvFor(k, f, mine, other) && CanAct(k, f, mine.writer, a)
    requires a.WriteSome? || a.WriteAll? || a.Flush?
    ensures InvFor(NextDisks(k, f, mine.writer, a), f, NextDocument(k, f, mine, a), other)
  {
    Assemble(k, NextDisks(k, f, mine.writer, a), f, mine, NextDocument(k, f, mine, a), other);
  }

  lemma LeaveKeeps(k: Disks, f: File, mine: Document, other: Document, a: Action)
    requires InvFor(k, f, mine, other) && CanAct(k, f, mine.writer, a) && (a.Fail? || a.Stop?)
    ensures InvFor(NextDisks(k, f, mine.writer, a), f, NextDocument(k, f, mine, a), other)
  {
    Assemble(k, NextDisks(k, f, mine.writer, a), f, mine, NextDocument(k, f, mine, a), other);
  }

  lemma RenameKeeps(k: Disks, f: File, mine: Document, other: Document)
    requires InvFor(k, f, mine, other) && CanAct(k, f, mine.writer, Rename)
    ensures InvFor(NextDisks(k, f, mine.writer, Rename), f, NextDocument(k, f, mine, Rename), other)
  {
    var k', w := NextDisks(k, f, mine.writer, Rename), mine.writer;
    assert Clean(k, w.inode);
    assert forall i :: Targets(k', i) ==> i == w.inode || Targets(k, i);
    assert forall i :: Clean(k', i) <==> Clean(k, i);
    assert ContentsOk(k', f.Other(), other);
  }

  lemma ActionKeeps(k: Disks, f: File, mine: Document, other: Document, a: Action)
    requires InvFor(k, f, mine, other) && CanAct(k, f, mine.writer, a)
    ensures InvFor(NextDisks(k, f, mine.writer, a), f, NextDocument(k, f, mine, a), other)
  {
    match a
    case Sweep => SweepKeeps(k, f, mine, other);
    case Create(suffix, doc) => CreateKeeps(k, NextDisks(k, f, mine.writer, a), f, mine, other, suffix, doc);
    case Rename => RenameKeeps(k, f, mine, other);
    case Fail => LeaveKeeps(k, f, mine, other, a);
    case Stop => LeaveKeeps(k, f, mine, other, a);
    case _ => StageKeeps(k, f, mine, other, a);
  }

  lemma WriteBackDataKeeps(k: Disks, f: File, mine: Document, other: Document, inode: nat, content: string)
    requires InvFor(k, f, mine, other)
    requires inode in k.live.data && inode in k.durable.data && k.live.data[inode] != k.durable.data[inode]
    ensures InvFor(k.(durable := k.durable.(data := k.durable.data[inode := content])), f, mine, other)
  {
    var k' := k.(durable := k.durable.(data := k.durable.data[inode := content]));
    assert !Clean(k, inode);
    assert TargetsKept(k, k');
    KeptTargets(k, k', f);
    KeptTargets(k, k', f.Other());
  }

  /** The durable directory takes over the live entry of `f`. */
  lemma CatchUpKeeps(k: Disks, k': Disks, f: File, mine: Document, other: Document)
    requires InvFor(k, f, mine, other)
    requires k' == k.(durable := k.durable.(dir := k'.durable.dir))
    requires SameTarget(k.durable, k'.durable, f.Other()) && SameTarget(k.live, k'.durable, f)
    ensures InvFor(k', f, Caught(mine), other)
  {
    assert forall i :: Targets(k', i) ==> Targets(k, i);
    assert forall i :: Clean(k', i) <==> Clean(k, i);
    if Target(f) in k.live.dir { assert Targets(k, k.live.dir[Target(f)]); }
    assert ContentsOk(k', f, Caught(mine)) && ContentsOk(k', f.Other(), other);
  }

  /** Entries of temporary files may come and go in the durable directory. */
  lemma DurableTempsIrrelevant(k: Disks, k': Disks, f: File, mine: Document, other: Document)
    requires InvFor(k, f, mine, other)
    requires k' == k.(durable := k.durable.(dir := k'.durable.dir))
    requires SameTarget(k.durable, k'.durable, f) && SameTarget(k.durable, k'.durable, f.Other())
    ensures InvFor(k', f, mine, other)
  {
    Assemble(k, k', f, mine, mine, other);
  }

  lemma FlushDirectoryKeeps(k: Disks, f: File, mine: Document, other: Document)
    requires InvFor(k, f, mine, other)
    ensures InvFor(k.(durable := k.durable.(dir := k.live.dir)), f, Promised(Caught(mine)), Caught(other))
  {
    var k1 := EntryWritten(k, Target(f));
    CatchUpKeeps(k, k1, f, mine, other);
    var k2 := EntryWritten(k1, Target(f.Other()));
    CatchUpKeeps(k1, k2, f.Other(), other, Caught(mine));
    var k3 := k.(durable := k.durable.(dir := k.live.dir));
    DurableTempsIrrelevant(k2, k3, f, Caught(mine), Caught(other));
  }

  lemma CrashKeeps(k: Disks, f: File, mine: Document, other: Document)
    requires InvFor(k, f, mine, other)
    ensures InvFor(Disks(k.durable, k.durable, k.next), f, AfterCrash(mine), AfterCrash(other))
  {
    var k' := Disks(k.durable, k.durable, k.next);
    assert forall i :: Targets(k', i) ==> Targets(k, i);
  }

  lemma DoesKeeps(s: State, f: File, a: Action)
    requires Inv(s) && CanAct(s.disks, f, s.Of(f).writer, a)
    ensures Inv(s.With(f, NextDisks(s.disks, f, s.Of(f).writer, a), NextDocument(s.disks, f, s.Of(f), a)))
  {
    EitherSide(s, f);
    ActionKeeps(s.disks, f, s.Of(f), s.Of(f.Other()), a);
    EitherSide(s.With(f, NextDisks(s.disks, f, s.Of(f).writer, a), NextDocument(s.disks, f, s.Of(f), a)), f);
  }

  lemma DirectoryStepKeeps(s: State, f: File)
    requires Inv(s) && Enabled(s, FlushDirectory(f))
    ensures Inv(Step(s, FlushDirectory(f)))
  {
    EitherSide(s, f);
    EitherSide(Step(s, FlushDirectory(f)), f);
    FlushDirectoryKeeps(s.disks, f, s.Of(f), s.Of(f.Other()));
  }

  lemma EntryStepKeeps(s: State, name: Entry)
    requires Inv(s)
    ensures Inv(Step(s, WriteBackEntry(name)))
  {
    EitherSide(s, name.f);
    EitherSide(Step(s, WriteBackEntry(name)), name.f);
    var k := EntryWritten(s.disks, name);
    if name.Target? {
      CatchUpKeeps(s.disks, k, name.f, s.Of(name.f), s.Of(name.f.Other()));
    } else {
      DurableTempsIrrelevant(s.disks, k, name.f, s.Of(name.f), s.Of(name.f.Other()));
    }
  }

  lemma StepKeeps(s: State, e: Event)
    requires Inv(s) && Enabled(s, e)
    ensures Inv(Step(s, e))
  {
    match e
    case Does(f, a) => DoesKeeps(s, f, a);
    case FlushDirectory(f) => DirectoryStepKeeps(s, f);
    case WriteBackEntry(name) => EntryStepKeeps(s, name);
    case WriteBackData(inode, content) =>
      WriteBackDataKeeps(s.disks, Identities, s.identities, s.cursors, inode, content);
    case Crash => CrashKeeps(s.disks, Identities, s.identities, s.cursors);
  }

  // ----- Runs ----------------------------------------------------------------

  ghost predicate Possible(s: State, run: seq<Event>)
    decreases |run|, 0
  {
    run == [] || (Possible(s, run[..|run| - 1]) && Enabled(After(s, run[..|run| - 1]), run[|run| - 1]))
  }

  ghost function After(s: State, run: seq<Event>): State
    requires Possible(s, run)
    decreases |run|, 1
  {
    if run == [] then s else Step(After(s, run[..|run| - 1]), run[|run| - 1])
  }

  /** A machine that has just started: everything on disk is durable, nothing is being saved. */
  ghost predicate Initial(s: State) {
    && s.disks.live == s.disks.durable
    && (forall name :: name in s.disks.live.dir ==> s.disks.live.dir[name] in s.disks.live.data)
    && (forall inode :: inode in s.disks.live.data ==> inode < s.disks.next)
    && s.identities == Document(Idle, [s.disks.live.Read(Target(Identities))], 0, 0)
    && s.cursors == Document(Idle, [s.disks.live.Read(Target(Cursors))], 0, 0)
  }

  /** Some save of `f` was handed the whole of `doc`. */
  ghost predicate Offered(run: seq<Event>, f: File, doc: string) {
    exists i :: 0 <= i < |run| && run[i].Does? && run[i].f == f && run[i].action.Create? && run[i].action.doc == doc
  }

  /** Every content in play is the one found at the start, or was handed whole to some save. */
  ghost predicate Provenance(start: Option<string>, run: seq<Event>, f: File, d: Document) {
    && (forall c :: c in d.installed ==> c == start || (c.Some? && Offered(run, f, c.value)))
    && (Staged(d.writer) ==> Offered(run, f, d.writer.doc))
  }

  lemma OfferedStays(run: seq<Event>, e: Event, f: File, doc: string)
    requires Offered(run, f, doc)
    ensures Offered(run + [e], f, doc)
  {
    var i :| 0 <= i < |run| && run[i].Does? && run[i].f == f && run[i].action.Create? && run[i].action.doc == doc;
    assert (run + [e])[i] == run[i];
  }

  lemma ProvenanceStays(start: Option<string>, run: seq<Event>, e: Event, f: File, d: Document)
    requires Provenance(start, run, f, d)
    ensures Provenance(start, run + [e], f, d)
  {
    forall doc | Offered(run, f, doc) ensures Offered(run + [e], f, doc) { OfferedStays(run, e, f, doc); }
  }

  /** Outside a document's own save, it catches up, is promised, is truncated by a crash, or stays. */
  lemma OtherwiseUnsaved(s: State, e: Event, f: File)
    requires Enabled(s, e) && !(e.Does? && e.f == f)
    ensures var d, d' := s.Of(f), Step(s, e).Of(f);
            (forall c :: c in d'.installed ==> c in d.installed) && (d'.writer == d.writer || d'.writer == Idle)
  {
  }

  lemma ActionProvenance(start: Option<string>, run: seq<Event>, k: Disks, f: File, d: Document, a: Action)
    requires Provenance(start, run, f, d) && CanAct(k, f, d.writer, a)
    requires a.Create? ==> Offered(run, f, a.doc)
    ensures Provenance(start, run, f, NextDocument(k, f, d, a))
  {
  }

  lemma ProvenanceStep(start: Option<string>, run: seq<Event>, s: State, e: Event, f: File)
    requires Provenance(start, run, f, s.Of(f)) && Enabled(s, e)
    ensures Provenance(start, run + [e], f, Step(s, e).Of(f))
  {
    ProvenanceStays(start, run, e, f, s.Of(f));
    assert (run + [e])[|run|] == e;
    if e.Does? && e.f == f {
      ActionProvenance(start, run + [e], s.disks, f, s.Of(f), e.action);
    } else {
      OtherwiseUnsaved(s, e, f);
    }
  }

  lemma InitialInv(s: State)
    requires Initial(s)
    ensures Inv(s)
  {
  }

  lemma {:induction false} RunKeeps(s0: State, run: seq<Event>)
    requires Initial(s0) && Possible(s0, run)
    ensures Inv(After(s0, run))
  {
    if run == [] {
      InitialInv(s0);
    } else {
      RunKeeps(s0, run[..|run| - 1]);
      StepKeeps(After(s0, run[..|run| - 1]), run[|run| - 1]);
    }
  }

  lemma {:induction false} RunProvenance(s0: State, run: seq<Event>, f: File)
    requires Initial(s0) && Possible(s0, run)
    ensures Provenance(s0.disks.live.Read(Target(f)), run, f, After(s0, run).Of(f))
  {
    if run == [] {
      assert s0.Of(f).installed == [s0.disks.live.Read(Target(f))];
    } else {
      RunProvenance(s0, run[..|run| - 1], f);
      ProvenanceStep(s0.disks.live.Read(Target(f)), run[..|run| - 1], After(s0, run[..|run| - 1]), run[|run| - 1], f);
      assert run == run[..|run| - 1] + [run[|run| - 1]];
    }
  }

  lemma CrashReads(s: State, f: File)
    requires Inv(s)
    ensures ContentsOk(s.disks, f, s.Of(f))
    ensures Step(s, Crash).disks.live.Read(Target(f)) == s.Of(f).installed[s.Of(f).durable]
  {
    EitherSide(s, f);
  }

  /** As found at the start, or exactly as handed to some save. */
  ghost predicate Whole(start: Option<string>, run: seq<Event>, f: File, content: Option<string>) {
    content == start || (content.Some? && Offered(run, f, content.value))
  }

  /**
   A crash in `s` leaves the document whole, and never older than the last one whose
   directory flush succeeded. A reader meanwhile sees the newest one.
   */
  ghost predicate CrashSafe(start: Option<string>, run: seq<Event>, s: State, f: File) {
    var d := s.Of(f);
    && d.promised <= d.durable < |d.installed|
    && Step(s, Crash).disks.live.Read(Target(f)) == d.installed[d.durable]
    && Whole(start, run, f, d.installed[d.durable])
    && s.disks.live.Read(Target(f)) == d.installed[|d.installed| - 1]
  }

  lemma CrashReadsWhole(start: Option<string>, run: seq<Event>, s: State, f: File)
    requires Inv(s) && Provenance(start, run, f, s.Of(f))
    ensures CrashSafe(start, run, s, f)
  {
    CrashReads(s, f);
    assert s.Of(f).installed[s.Of(f).durable] in s.Of(f).installed;
  }

  /** At every moment of every run, for either document. */
  lemma CrashLeavesAWholeDocument(s0: State, run: seq<Event>, f: File)
    requires Initial(s0) && Possible(s0, run)
    ensures CrashSafe(s0.disks.live.Read(Target(f)), run, After(s0, run), f)
  {
    RunKeeps(s0, run);
    RunProvenance(s0, run, f);
    CrashReadsWhole(s0.disks.live.Read(Target(f)), run, After(s0, run), f);
  }

  /** Once its directory flush succeeds, a save is what a crash finds. */
  lemma CompletedSaveSurvives(s: State, f: File)
    requires Inv(s) && Enabled(s, FlushDirectory(f))
    ensures var s' := Step(s, FlushDirectory(f));
            && s'.Of(f).promised == |s.Of(f).installed| - 1
            && Step(s', Crash).disks.live.Read(Target(f)) == s.disks.live.Read(Target(f))
  {
    DirectoryStepKeeps(s, f);
    CrashReads(s, f);
    CrashReads(Step(s, FlushDirectory(f)), f);
  }

  /** A save that meets no failure goes through: its content is installed, promised, and what a crash would find. */
  lemma SaveGoesThrough(s: State, f: File, suffix: string, doc: string)
    requires Inv(s) && Enabled(s, Does(f, Create(suffix, doc)))
    ensures var s1 := Step(s, Does(f, Create(suffix, doc)));
            Enabled(s1, Does(f, WriteAll)) &&
            var s2 := Step(s1, Does(f, WriteAll));
            Enabled(s2, Does(f, Flush)) &&
            var s3 := Step(s2, Does(f, Flush));
            Enabled(s3, Does(f, Rename)) &&
            var s4 := Step(s3, Does(f, Rename));
            Enabled(s4, FlushDirectory(f)) &&
            var s5 := Step(s4, FlushDirectory(f));
            && s5.Of(f).writer.Idle? && s5.Of(f).installed == s.Of(f).installed + [Some(doc)]
            && s5.Of(f).promised == |s.Of(f).installed|
            && s5.disks.live.Read(Target(f)) == Some(doc) == s5.disks.durable.Read(Target(f))
  {
  }

  lemma ActionPromise(k: Disks, f: File, d: Document, a: Action)
    requires CanAct(k, f, d.writer, a) && d.promised < |d.installed|
    ensures var d' := NextDocument(k, f, d, a);
            d.promised == d'.promised && d.installed[..d.promised + 1] <= d'.installed
  {
    if a.Rename? { assert NextDocument(k, f, d, a).installed[..|d.installed|] == d.installed; }
  }

  /** What was promised stays installed, at its place, through every step and every crash. */
  lemma PromiseStands(s: State, e: Event, f: File)
    requires Inv(s) && Enabled(s, e)
    ensures var d, d' := s.Of(f), Step(s, e).Of(f);
            d.promised <= d'.promised && d.promised < |d.installed| && d.installed[..d.promised + 1] <= d'.installed
  {
    CrashReads(s, f);
    if e.Does? && e.f == f { ActionPromise(s.disks, f, s.Of(f), e.action); }
  }
}
