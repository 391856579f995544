/** The all-or-nothing commit of the deliverable documents, over a disk on which any step may fail. */
module DocumentsCommit {
  import opened Text
  import opened DocumentsBase
  import opened ManagedBlock

  /** The three files that belong to a document of one commit, and every other path. */
  datatype Path =
    | Target(name: string)
    | Staged(name: string)
    | Backup(name: string)
    | Elsewhere(path: string)

  type Files = map<Path, string>

  /** Which operations on the disk fail for reasons of its own, by their number. */
  type Failing = nat -> bool

  predicate NoneFails(fails: Failing, from: nat, to: nat) { forall k: nat | from <= k < to :: !fails(k) }

  /** The number of operations that fail. */
  function Failures(fails: Failing, from: nat, to: nat): nat
    requires from <= to
  {
    if from == to then 0 else Failures(fails, from, to - 1) + if fails(to - 1) then 1 else 0
  }

  lemma {:induction false} NoFailures(fails: Failing, from: nat, to: nat)
    requires from <= to
    ensures Failures(fails, from, to) == 0 <==> NoneFails(fails, from, to)
  {
    if from < to {
      NoFailures(fails, from, to - 1);
    }
  }

  lemma {:induction false} FailuresAdd(fails: Failing, from: nat, mid: nat, to: nat)
    requires from <= mid <= to
    ensures Failures(fails, from, to) == Failures(fails, from, mid) + Failures(fails, mid, to)
  {
    if mid < to {
      FailuresAdd(fails, from, mid, to - 1);
    }
  }

  /** The directory. Its operations are numbered in the order of the attempts; a failing operation has no effect. */
  class Disk {
    var files: Files
    const fails: Failing
    var clock: nat

    constructor (files: Files, fails: Failing)
      ensures this.files == files && this.fails == fails && clock == 0
    {
      this.files, this.fails, clock := files, fails, 0;
    }

    /** Any operation that changes no file. */
    method Attempt() returns (ok: bool)
      modifies `clock
      ensures clock == old(clock) + 1 && ok == !fails(old(clock))
    {
      ok := !fails(clock);
      clock := clock + 1;
    }

    method CreateNew(path: Path, text: string) returns (ok: bool)
      modifies this
      ensures clock == old(clock) + 1 && (ok <==> !fails(old(clock)) && path !in old(files))
      ensures files == if ok then old(files)[path := text] else old(files)
    {
      ok := Attempt();
      ok := ok && path !in files;
      if ok {
        files := files[path := text];
      }
    }

    method Rename(from: Path, to: Path) returns (ok: bool)
      modifies this
      ensures clock == old(clock) + 1 && (ok <==> !fails(old(clock)) && from in old(files))
      ensures files == if ok then (old(files) - {from})[to := old(files)[from]] else old(files)
    {
      ok := Attempt();
      ok := ok && from in files;
      if ok {
        files := (files - {from})[to := files[from]];
      }
    }

    method Link(from: Path, to: Path) returns (ok: bool)
      modifies this
      ensures clock == old(clock) + 1 && (ok <==> !fails(old(clock)) && from in old(files) && to !in old(files))
      ensures files == if ok then old(files)[to := old(files)[from]] else old(files)
    {
      ok := Attempt();
      ok := ok && from in files && to !in files;
      if ok {
        files := files[to := files[from]];
      }
    }

    method Remove(path: Path, force: bool) returns (ok: bool)
      modifies this
      ensures clock == old(clock) + 1 && (ok <==> !fails(old(clock)) && (force || path in old(files)))
      ensures files == if ok then old(files) - {path} else old(files)
    {
      ok := Attempt();
      ok := ok && (force || path in files);
      if ok {
        files := files - {path};
      }
    }
  }

  /** A document of the bundle: its file name, and how its new text is rendered into the text that is there. */
  datatype Doc = Doc(name: string, render: Option<string> -> Rendered)

  /** The document Forge writes: the body's managed block, placed into the existing text. */
  function ManagedDoc(name: string, marker: string, body: string): Doc {
    Doc(name, existing => RenderManagedDocument(marker, body, existing))
  }

  datatype CommitResult =
    | Committed(base: string)
    | Conflict
    | Invalid
    | Failed(errors: nat)
    | Threw

  datatype StagedEntry = StagedEntry(name: string, existed: bool, backedUp: bool, installed: bool)

  function Names(docs: seq<Doc>): (names: seq<string>)
    ensures |names| == |docs| && forall i | 0 <= i < |docs| :: names[i] == docs[i].name
  {
    seq(|docs|, i requires 0 <= i < |docs| => docs[i].name)
  }

  predicate Distinct(docs: seq<Doc>) {
    forall i, j | 0 <= i < j < |docs| :: docs[i].name != docs[j].name
  }

  function Lookup(files: Files, path: Path): Option<string> {
    if path in files then Some(files[path]) else None
  }

  function Contents(files: Files, names: seq<string>): (contents: seq<Option<string>>)
    ensures |contents| == |names|
  {
    seq(|names|, i requires 0 <= i < |names| => Lookup(files, Target(names[i])))
  }

  /** The text a commit writes for a document, given the document as it stands. */
  function NewText(files: Files, doc: Doc): Rendered {
    doc.render(Lookup(files, Target(doc.name)))
  }

  /** Reading fails at document `i`: it is there, and its read fails. */
  predicate ReadFailsAt(files: Files, names: seq<string>, fails: Failing, clock: nat, i: nat)
    requires i < |names|
  {
    Target(names[i]) in files && fails(clock + 1 + i)
  }

  /** The directory is not in order, or a document that is there cannot be read. */
  predicate CaptureFails(files: Files, names: seq<string>, fails: Failing, clock: nat) {
    fails(clock) || exists i :: 0 <= i < |names| && ReadFailsAt(files, names, fails, clock, i)
  }

  /** Reading every document into the stream; nothing is written. */
  method CaptureDocumentsBase(disk: Disk, names: seq<string>) returns (base: Option<string>)
    modifies disk`clock
    ensures base.None? <==> CaptureFails(disk.files, names, disk.fails, old(disk.clock))
    ensures base.Some? ==>
              disk.clock == old(disk.clock) + 1 + |names| && base.value == BaseStream(names, Contents(disk.files, names))
    ensures old(disk.clock) < disk.clock && (base.None? ==> !NoneFails(disk.fails, old(disk.clock), disk.clock))
  {
    var inOrder := disk.Attempt();
    if !inOrder {
      return None;
    }
    var stream := "";
    var i := 0;
    while i < |names|
      invariant 0 <= i <= |names| && disk.clock == old(disk.clock) + 1 + i
      invariant forall j | 0 <= j < i :: !ReadFailsAt(disk.files, names, disk.fails, old(disk.clock), j)
      invariant stream == BaseStream(names[..i], Contents(disk.files, names[..i]))
    {
      var readable := disk.Attempt();
      var content := Lookup(disk.files, Target(names[i]));
      if content.Some? && !readable {
        assert ReadFailsAt(disk.files, names, disk.fails, old(disk.clock), i);
        return None;
      }
      stream := stream + BaseEntry(names[i], content);
      OneMoreEntry(disk.files, names, i);
      i := i + 1;
    }
    assert names[..i] == names;
    return Some(stream);
  }

  lemma OneMoreEntry(files: Files, names: seq<string>, i: nat)
    requires i < |names|
    ensures BaseStream(names[..i + 1], Contents(files, names[..i + 1]))
         == BaseStream(names[..i], Contents(files, names[..i])) + BaseEntry(names[i], Lookup(files, Target(names[i])))
  {
    var content := Lookup(files, Target(names[i]));
    BaseStreamAppend(names[..i], Contents(files, names[..i]), names[i], content);
    assert names[..i + 1] == names[..i] + [names[i]];
    assert Contents(files, names[..i + 1]) == Contents(files, names[..i]) + [content];
  }

  // ----- Where a commit stands -----

  /** One staged document in the middle of a commit; its flags say how far it got from `start`. */
  ghost predicate EntryState(start: Files, now: Files, doc: Doc, entry: StagedEntry) {
    var target, backup := Target(doc.name), Backup(doc.name);
    && entry.name == doc.name
    && (entry.backedUp ==> target in start && Lookup(now, backup) == Some(start[target]))
    && (!entry.backedUp ==> backup !in now)
    && (entry.installed ==>
          && NewText(start, doc).Document?
          && Lookup(now, target) == Some(NewText(start, doc).text)
          && entry.backedUp == (target in start))
    && (!entry.installed && entry.backedUp ==> target !in now)
    && (!entry.installed && !entry.backedUp ==> Lookup(now, target) == Lookup(start, target))
  }

  /** A document that can be installed: its new text lies beside it and none of it has been moved yet. */
  ghost predicate Ready(start: Files, now: Files, doc: Doc, entry: StagedEntry) {
    && !entry.backedUp && !entry.installed
    && entry.existed == (Target(doc.name) in start)
    && NewText(start, doc).Document?
    && Lookup(now, Staged(doc.name)) == Some(NewText(start, doc).text)
  }

  /** Nothing but the paths of the first `n` documents differs from `start`. */
  ghost predicate OthersKept(start: Files, now: Files, docs: seq<Doc>, n: nat)
    requires n <= |docs|
  {
    forall p: Path :: (forall j | 0 <= j < n :: p.Elsewhere? || p.name != docs[j].name)
                      ==> Lookup(now, p) == Lookup(start, p)
  }

  ghost predicate Midway(start: Files, now: Files, docs: seq<Doc>, entries: seq<StagedEntry>) {
    && |entries| <= |docs|
    && OthersKept(start, now, docs, |entries|)
    && forall j | 0 <= j < |entries| :: EntryState(start, now, docs[j], entries[j])
  }

  /** The first `i` documents are installed, the others are ready to be. */
  ghost predicate InstalledBefore(start: Files, now: Files, docs: seq<Doc>, entries: seq<StagedEntry>, i: nat) {
    && i <= |entries| <= |docs|
    && (forall j | 0 <= j < i :: entries[j].installed && Staged(docs[j].name) !in now)
    && (forall j | i <= j < |entries| :: Ready(start, now, docs[j], entries[j]))
  }

  /** No temporary file of this commit is there before it starts (its token is a fresh UUID). */
  ghost predicate TokenIsFresh(files: Files, docs: seq<Doc>) {
    forall i | 0 <= i < |docs| :: Staged(docs[i].name) !in files && Backup(docs[i].name) !in files
  }

  /** Only the three paths of one document differ. */
  ghost predicate OnlyTouches(before: Files, after: Files, name: string) {
    forall p: Path :: p.Elsewhere? || p.name != name ==> Lookup(after, p) == Lookup(before, p)
  }

  /** A step on the paths of one document leaves the state of every other document. */
  lemma EntryFrame(start: Files, before: Files, after: Files, doc: Doc, entry: StagedEntry, touched: string)
    requires OnlyTouches(before, after, touched) && doc.name != touched
    ensures EntryState(start, before, doc, entry) ==> EntryState(start, after, doc, entry)
    ensures Ready(start, before, doc, entry) ==> Ready(start, after, doc, entry)
    ensures Staged(doc.name) !in before ==> Staged(doc.name) !in after
  {
    assert Lookup(after, Target(doc.name)) == Lookup(before, Target(doc.name));
    assert Lookup(after, Staged(doc.name)) == Lookup(before, Staged(doc.name));
    assert Lookup(after, Backup(doc.name)) == Lookup(before, Backup(doc.name));
  }

  // ----- Staging -----

  /** The document cannot be read, cannot be rendered, or its new text cannot be written. */
  predicate StageFails(files: Files, doc: Doc, fails: Failing, clock: nat) {
    (Target(doc.name) in files && fails(clock)) || !NewText(files, doc).Document? || fails(clock + 1)
  }

  predicate StageFailsAt(files: Files, docs: seq<Doc>, fails: Failing, clock: nat, i: nat)
    requires i < |docs|
  {
    StageFails(files, docs[i], fails, clock + 2 * i)
  }

  predicate StagingFails(files: Files, docs: seq<Doc>, fails: Failing, clock: nat) {
    exists i :: 0 <= i < |docs| && StageFailsAt(files, docs, fails, clock, i)
  }

  predicate AllRender(files: Files, docs: seq<Doc>) {
    forall i | 0 <= i < |docs| :: NewText(files, docs[i]).Document?
  }

  lemma StagedRender(files: Files, docs: seq<Doc>, fails: Failing, clock: nat)
    requires !StagingFails(files, docs, fails, clock)
    ensures AllRender(files, docs)
  {
    forall i | 0 <= i < |docs|
      ensures NewText(files, docs[i]).Document?
    {
      assert !StageFailsAt(files, docs, fails, clock, i);
    }
  }

  /** Writing one rendered document beside its target. */
  method StageOne(disk: Disk, doc: Doc, ghost start: Files) returns (entry: StagedEntry, ok: bool)
    requires Lookup(disk.files, Target(doc.name)) == Lookup(start, Target(doc.name))
    requires Backup(doc.name) !in disk.files && Staged(doc.name) !in disk.files
    modifies disk
    ensures ok <==> !StageFails(start, doc, disk.fails, old(disk.clock))
    ensures old(disk.clock) < disk.clock && (ok ==> disk.clock == old(disk.clock) + 2)
    ensures !ok ==> !NewText(start, doc).Document? || !NoneFails(disk.fails, old(disk.clock), disk.clock)
    ensures !ok ==> disk.files == old(disk.files)
    ensures ok ==> EntryState(start, disk.files, doc, entry) && Ready(start, disk.files, doc, entry)
    ensures OnlyTouches(old(disk.files), disk.files, doc.name)
  {
    entry := StagedEntry(doc.name, Target(doc.name) in disk.files, false, false);
    var readable := disk.Attempt();
    var text := NewText(disk.files, doc);
    if (entry.existed && !readable) || !text.Document? {
      return entry, false;
    }
    ok := disk.CreateNew(Staged(doc.name), text.text);
  }

  /** The next document is staged, or nothing happens. */
  method StageNext(disk: Disk, docs: seq<Doc>, ghost start: Files, entries: seq<StagedEntry>, ghost from: nat)
      returns (more: seq<StagedEntry>, ok: bool)
    requires Distinct(docs) && TokenIsFresh(start, docs) && |entries| < |docs|
    requires Midway(start, disk.files, docs, entries) && InstalledBefore(start, disk.files, docs, entries, 0)
    requires disk.clock == from + 2 * |entries|
    modifies disk
    ensures Midway(start, disk.files, docs, more) && InstalledBefore(start, disk.files, docs, more, 0)
    ensures |more| == |entries| + if ok then 1 else 0
    ensures ok <==> !StageFailsAt(start, docs, disk.fails, from, |entries|)
    ensures old(disk.clock) < disk.clock && (ok ==> disk.clock == old(disk.clock) + 2)
    ensures !ok ==> !NewText(start, docs[|entries|]).Document? || !NoneFails(disk.fails, old(disk.clock), disk.clock)
  {
    var i := |entries|;
    more := entries;
    ghost var before := disk.files;
    NotYetTouched(start, before, docs, i);
    var entry;
    entry, ok := StageOne(disk, docs[i], start);
    if ok {
      StagedNext(start, before, disk.files, docs, entries, entry);
      more := entries + [entry];
    }
  }

  /** Writing every rendered document beside its target. */
  method StageDocuments(disk: Disk, docs: seq<Doc>) returns (entries: seq<StagedEntry>, ok: bool)
    requires Distinct(docs) && TokenIsFresh(disk.files, docs)
    modifies disk
    ensures ok <==> !StagingFails(old(disk.files), docs, disk.fails, old(disk.clock))
    ensures old(disk.clock) <= disk.clock && (ok ==> disk.clock == old(disk.clock) + 2 * |docs|)
    ensures !ok ==> !AllRender(old(disk.files), docs) || !NoneFails(disk.fails, old(disk.clock), disk.clock)
    ensures Midway(old(disk.files), disk.files, docs, entries)
    ensures InstalledBefore(old(disk.files), disk.files, docs, entries, 0)
    ensures ok ==> |entries| == |docs|
  {
    ghost var start := disk.files;
    entries := [];
    while |entries| < |docs|
      invariant Midway(start, disk.files, docs, entries)
      invariant InstalledBefore(start, disk.files, docs, entries, 0)
      invariant disk.clock == old(disk.clock) + 2 * |entries|
      invariant forall j | 0 <= j < |entries| :: !StageFailsAt(start, docs, disk.fails, old(disk.clock), j)
    {
      entries, ok := StageNext(disk, docs, start, entries, old(disk.clock));
      if !ok {
        return;
      }
    }
    ok := true;
  }

  lemma NotYetTouched(start: Files, now: Files, docs: seq<Doc>, i: nat)
    requires Distinct(docs) && TokenIsFresh(start, docs) && i < |docs| && OthersKept(start, now, docs, i)
    ensures Lookup(now, Target(docs[i].name)) == Lookup(start, Target(docs[i].name))
    ensures Backup(docs[i].name) !in now && Staged(docs[i].name) !in now
  {
    assert forall j | 0 <= j < i :: docs[i].name != docs[j].name;
    assert Lookup(now, Backup(docs[i].name)) == Lookup(start, Backup(docs[i].name));
    assert Lookup(now, Staged(docs[i].name)) == Lookup(start, Staged(docs[i].name));
  }

  lemma StagedNext(start: Files, before: Files, after: Files, docs: seq<Doc>, entries: seq<StagedEntry>,
                   entry: StagedEntry)
    requires Distinct(docs) && |entries| < |docs|
    requires Midway(start, before, docs, entries) && InstalledBefore(start, before, docs, entries, 0)
    requires OnlyTouches(before, after, docs[|entries|].name)
    requires EntryState(start, after, docs[|entries|], entry) && Ready(start, after, docs[|entries|], entry)
    ensures Midway(start, after, docs, entries + [entry])
    ensures InstalledBefore(start, after, docs, entries + [entry], 0)
  {
    var i := |entries|;
    forall j | 0 <= j < i
      ensures EntryState(start, after, docs[j], entries[j]) && Ready(start, after, docs[j], entries[j])
    {
      EntryFrame(start, before, after, docs[j], entries[j], docs[i].name);
    }
    forall p: Path | forall j | 0 <= j < i + 1 :: p.Elsewhere? || p.name != docs[j].name
      ensures Lookup(after, p) == Lookup(start, p)
    {
      assert p.Elsewhere? || p.name != docs[i].name;
    }
  }

  // ----- Installing -----

  /** Moving one old document aside and linking the new one into its place. */
  method InstallOne(disk: Disk, doc: Doc, ghost start: Files, staged: StagedEntry)
      returns (entry: StagedEntry, ok: bool)
    requires EntryState(start, disk.files, doc, staged) && Ready(start, disk.files, doc, staged)
    modifies disk
    ensures EntryState(start, disk.files, doc, entry)
    ensures old(disk.clock) < disk.clock
    ensures Failures(disk.fails, old(disk.clock), disk.clock) == if ok then 0 else 1
    ensures ok ==> entry.installed && Staged(doc.name) !in disk.files
    ensures OnlyTouches(old(disk.files), disk.files, doc.name)
  {
    entry := staged;
    ghost var c := disk.clock;
    if entry.existed {
      ok := disk.Rename(Target(doc.name), Backup(doc.name));
      assert Failures(disk.fails, c, disk.clock) == if ok then 0 else 1;
      if !ok {
        return;
      }
      entry := entry.(backedUp := true);
    }
    ok := disk.Link(Staged(doc.name), Target(doc.name));
    assert Failures(disk.fails, c, disk.clock) == if ok then 0 else 1;
    if !ok {
      return;
    }
    entry := entry.(installed := true);
    ok := disk.Remove(Staged(doc.name), false);
  }

  method InstallDocuments(disk: Disk, docs: seq<Doc>, ghost start: Files, staged: seq<StagedEntry>)
      returns (entries: seq<StagedEntry>, ok: bool)
    requires Distinct(docs) && |staged| == |docs|
    requires Midway(start, disk.files, docs, staged) && InstalledBefore(start, disk.files, docs, staged, 0)
    modifies disk
    ensures Midway(start, disk.files, docs, entries) && |entries| == |docs|
    ensures old(disk.clock) <= disk.clock
    ensures Failures(disk.fails, old(disk.clock), disk.clock) == if ok then 0 else 1
    ensures ok ==> InstalledBefore(start, disk.files, docs, entries, |docs|)
  {
    entries := staged;
    var i := 0;
    while i < |docs|
      invariant i <= |entries| == |docs|
      invariant old(disk.clock) <= disk.clock && Failures(disk.fails, old(disk.clock), disk.clock) == 0
      invariant Midway(start, disk.files, docs, entries)
      invariant InstalledBefore(start, disk.files, docs, entries, i)
    {
      ghost var before, mid := disk.files, disk.clock;
      var entry, installed := InstallOne(disk, docs[i], start, entries[i]);
      FailuresAdd(disk.fails, old(disk.clock), mid, disk.clock);
      MidwayNext(start, before, disk.files, docs, entries, i, entry);
      if !installed {
        return entries[i := entry], false;
      }
      InstalledNext(start, before, disk.files, docs, entries, i, entry);
      entries := entries[i := entry];
      i := i + 1;
    }
    ok := true;
  }

  lemma MidwayNext(start: Files, before: Files, after: Files, docs: seq<Doc>, entries: seq<StagedEntry>,
                   i: nat, entry: StagedEntry)
    requires Distinct(docs) && i < |entries| <= |docs| && Midway(start, before, docs, entries)
    requires OnlyTouches(before, after, docs[i].name) && EntryState(start, after, docs[i], entry)
    ensures Midway(start, after, docs, entries[i := entry])
  {
    OthersStillKept(start, before, after, docs, |entries|, i);
    forall j | 0 <= j < |entries| && j != i
      ensures EntryState(start, after, docs[j], entries[j])
    {
      assert EntryState(start, before, docs[j], entries[j]);
      EntryFrame(start, before, after, docs[j], entries[j], docs[i].name);
    }
  }

  lemma InstalledNext(start: Files, before: Files, after: Files, docs: seq<Doc>, entries: seq<StagedEntry>,
                      i: nat, entry: StagedEntry)
    requires Distinct(docs) && i < |entries| <= |docs| && InstalledBefore(start, before, docs, entries, i)
    requires OnlyTouches(before, after, docs[i].name)
    requires entry.installed && Staged(docs[i].name) !in after
    ensures InstalledBefore(start, after, docs, entries[i := entry], i + 1)
  {
    forall j | 0 <= j < |entries| && j != i
      ensures j < i ==> Staged(docs[j].name) !in after
      ensures i < j ==> Ready(start, after, docs[j], entries[j])
    {
      EntryFrame(start, before, after, docs[j], entries[j], docs[i].name);
    }
  }

  lemma OthersStillKept(start: Files, before: Files, after: Files, docs: seq<Doc>, n: nat, i: nat)
    requires i < n <= |docs| && OthersKept(start, before, docs, n) && OnlyTouches(before, after, docs[i].name)
    ensures OthersKept(start, after, docs, n)
  {
  }

  // ----- Rolling back -----

  /** The document is as it was before. */
  ghost predicate Restored(start: Files, now: Files, name: string) {
    Lookup(now, Target(name)) == Lookup(start, Target(name)) && Backup(name) !in now
  }

  /** The document's old text is still on the disk, at its own path or at its backup. */
  ghost predicate OldTextKept(start: Files, now: Files, name: string) {
    Target(name) in start ==>
      Lookup(now, Target(name)) == Lookup(start, Target(name)) || Lookup(now, Backup(name)) == Lookup(start, Target(name))
  }

  ghost predicate Undone(start: Files, now: Files, name: string, failed: bool) {
    OldTextKept(start, now, name) && (!failed ==> Restored(start, now, name))
  }

  method RollBackOne(disk: Disk, doc: Doc, ghost start: Files, entry: StagedEntry) returns (ok: bool)
    requires EntryState(start, disk.files, doc, entry)
    modifies disk
    ensures Undone(start, disk.files, doc.name, !ok)
    ensures old(disk.clock) <= disk.clock && (!entry.installed && !entry.backedUp ==> disk.clock == old(disk.clock))
    ensures Failures(disk.fails, old(disk.clock), disk.clock) == if ok then 0 else 1
    ensures OnlyTouches(old(disk.files), disk.files, doc.name)
  {
    ok := true;
    if entry.installed {
      ok := disk.Remove(Target(doc.name), true);
    }
    if ok && entry.backedUp {
      ok := disk.Rename(Backup(doc.name), Target(doc.name));
    }
  }

  /** After a failure: the entries are undone last to first, and each undoing may fail on its own. */
  method RollBack(disk: Disk, docs: seq<Doc>, ghost start: Files, entries: seq<StagedEntry>)
      returns (errors: nat, ghost unrestored: set<nat>)
    requires Distinct(docs) && Midway(start, disk.files, docs, entries)
    modifies disk
    ensures OthersKept(start, disk.files, docs, |entries|)
    ensures errors == |unrestored| && forall j | j in unrestored :: j < |entries|
    ensures forall j | 0 <= j < |entries| :: Undone(start, disk.files, docs[j].name, j in unrestored)
    ensures old(disk.clock) <= disk.clock && errors == Failures(disk.fails, old(disk.clock), disk.clock)
    ensures (forall e | e in entries :: !e.installed && !e.backedUp) ==> disk.clock == old(disk.clock)
  {
    errors, unrestored := 0, {};
    var i := |entries|;
    while 0 < i
      invariant 0 <= i
      invariant RollingBack(start, disk.files, docs, entries, i, unrestored)
      invariant errors == |unrestored|
      invariant old(disk.clock) <= disk.clock && errors == Failures(disk.fails, old(disk.clock), disk.clock)
      invariant (forall e | e in entries :: !e.installed && !e.backedUp) ==> disk.clock == old(disk.clock)
    {
      i := i - 1;
      ghost var before, mid := disk.files, disk.clock;
      var ok := RollBackOne(disk, docs[i], start, entries[i]);
      FailuresAdd(disk.fails, old(disk.clock), mid, disk.clock);
      RolledBackNext(start, before, disk.files, docs, entries, i, unrestored, ok);
      if !ok {
        errors, unrestored := errors + 1, unrestored + {i};
      }
    }
  }

  /** Entries from `i` on are undone, except the ones whose undoing failed. */
  ghost predicate RollingBack(start: Files, now: Files, docs: seq<Doc>, entries: seq<StagedEntry>, i: nat,
                              unrestored: set<nat>) {
    && i <= |entries| <= |docs|
    && OthersKept(start, now, docs, |entries|)
    && (forall j | j in unrestored :: i <= j < |entries|)
    && (forall j | 0 <= j < i :: EntryState(start, now, docs[j], entries[j]))
    && (forall j | i <= j < |entries| :: Undone(start, now, docs[j].name, j in unrestored))
  }

  lemma RolledBackNext(start: Files, before: Files, after: Files, docs: seq<Doc>, entries: seq<StagedEntry>,
                       i: nat, unrestored: set<nat>, ok: bool)
    requires Distinct(docs) && i < |entries| && RollingBack(start, before, docs, entries, i + 1, unrestored)
    requires OnlyTouches(before, after, docs[i].name) && Undone(start, after, docs[i].name, !ok)
    ensures RollingBack(start, after, docs, entries, i, if ok then unrestored else unrestored + {i})
    ensures i !in unrestored
  {
    var now := if ok then unrestored else unrestored + {i};
    OthersStillKept(start, before, after, docs, |entries|, i);
    forall j | 0 <= j < i
      ensures EntryState(start, after, docs[j], entries[j])
    {
      EntryFrame(start, before, after, docs[j], entries[j], docs[i].name);
    }
    forall j | i <= j < |entries|
      ensures Undone(start, after, docs[j].name, j in now)
    {
      if i < j {
        assert Undone(start, before, docs[j].name, j in unrestored);
        assert Lookup(after, Target(docs[j].name)) == Lookup(before, Target(docs[j].name));
        assert Lookup(after, Backup(docs[j].name)) == Lookup(before, Backup(docs[j].name));
      }
    }
  }

  // ----- Cleaning up -----

  /** Removing the staged files; the first removal that fails ends the clean-up with an exception. */
  method RemoveStaged(disk: Disk, docs: seq<Doc>, n: nat) returns (ok: bool)
    requires n <= |docs|
    modifies disk
    ensures forall p: Path | !p.Staged? :: Lookup(disk.files, p) == Lookup(old(disk.files), p)
    ensures OthersKept(old(disk.files), disk.files, docs, n)
    ensures ok ==> forall j | 0 <= j < n :: Staged(docs[j].name) !in disk.files
    ensures old(disk.clock) <= disk.clock && (ok <==> NoneFails(disk.fails, old(disk.clock), disk.clock))
  {
    var i := 0;
    while i < n
      invariant 0 <= i <= n
      invariant old(disk.clock) <= disk.clock && NoneFails(disk.fails, old(disk.clock), disk.clock)
      invariant forall p: Path | !p.Staged? :: Lookup(disk.files, p) == Lookup(old(disk.files), p)
      invariant OthersKept(old(disk.files), disk.files, docs, n)
      invariant forall j | 0 <= j < i :: Staged(docs[j].name) !in disk.files
    {
      ok := disk.Remove(Staged(docs[i].name), true);
      if !ok {
        return;
      }
      i := i + 1;
    }
    ok := true;
  }

  /** Removing the backups of an installed bundle. */
  method RemoveBackups(disk: Disk, docs: seq<Doc>, entries: seq<StagedEntry>) returns (ok: bool)
    requires |entries| == |docs|
    modifies disk
    ensures forall p: Path | !p.Backup? :: Lookup(disk.files, p) == Lookup(old(disk.files), p)
    ensures OthersKept(old(disk.files), disk.files, docs, |docs|)
    ensures ok ==> forall j | 0 <= j < |docs| && entries[j].backedUp :: Backup(docs[j].name) !in disk.files
    ensures forall j | 0 <= j < |docs| && Backup(docs[j].name) !in old(disk.files) :: Backup(docs[j].name) !in disk.files
    ensures old(disk.clock) <= disk.clock && (ok <==> NoneFails(disk.fails, old(disk.clock), disk.clock))
  {
    var i := 0;
    while i < |docs|
      invariant 0 <= i <= |docs|
      invariant old(disk.clock) <= disk.clock && NoneFails(disk.fails, old(disk.clock), disk.clock)
      invariant forall p: Path | !p.Backup? :: Lookup(disk.files, p) == Lookup(old(disk.files), p)
      invariant OthersKept(old(disk.files), disk.files, docs, |docs|)
      invariant forall j | 0 <= j < i && entries[j].backedUp :: Backup(docs[j].name) !in disk.files
      invariant forall j | 0 <= j < |docs| && Backup(docs[j].name) !in old(disk.files) ::
                  Backup(docs[j].name) !in disk.files
    {
      if entries[i].backedUp {
        ok := disk.Remove(Backup(docs[i].name), true);
        if !ok {
          return;
        }
      }
      i := i + 1;
    }
    ok := true;
  }

  // ----- The whole commit -----

  /** The directory once others have put `theirs` in the place of every document and every unrelated file; what bears a
      commit's token is not theirs to touch. */
  function Overwritten(files: Files, theirs: Files): Files {
    (map p | p in theirs && !p.Staged? && !p.Backup? :: theirs[p])
    + (map p | p in files && (p.Staged? || p.Backup?) :: files[p])
  }

  /** If the others leave everything as it was, they have not written at all. */
  lemma NobodyWrites(files: Files)
    ensures Overwritten(files, files) == files
  {
    assert forall p | p in files :: p in Overwritten(files, files) && Overwritten(files, files)[p] == files[p];
  }

  /** While the new texts are being staged, another program may change any document or any unrelated file. */
  method OthersWrite(disk: Disk, theirs: Files)
    modifies disk`files
    ensures disk.files == Overwritten(old(disk.files), theirs)
    ensures forall p: Path | p.Staged? || p.Backup? :: Lookup(disk.files, p) == Lookup(old(disk.files), p)
  {
    disk.files := Overwritten(disk.files, theirs);
  }

  /** The directory without this commit's temporary files: what everybody else sees. */
  ghost function WithoutTemps(files: Files, docs: seq<Doc>): Files {
    map p | p in files && (p.Target? || p.Elsewhere? || forall j | 0 <= j < |docs| :: p.name != docs[j].name) :: files[p]
  }

  /** What others see after their writes is what they wrote, whatever was staged meanwhile. */
  lemma TheySeeTheirs(start: Files, staged: Files, theirs: Files, docs: seq<Doc>)
    requires TokenIsFresh(start, docs) && OthersKept(start, staged, docs, |docs|)
    ensures WithoutTemps(Overwritten(staged, theirs), docs) == Overwritten(start, theirs)
  {
    var x, y := WithoutTemps(Overwritten(staged, theirs), docs), Overwritten(start, theirs);
    forall p: Path
      ensures Lookup(x, p) == Lookup(y, p)
    {
      if (p.Staged? || p.Backup?) && forall j | 0 <= j < |docs| :: p.name != docs[j].name {
        assert Lookup(staged, p) == Lookup(start, p);
      }
    }
    SameLookups(x, y);
  }

  lemma SameLookups(x: Files, y: Files)
    requires forall p: Path :: Lookup(x, p) == Lookup(y, p)
    ensures x == y
  {
    forall p: Path
      ensures p in x <==> p in y
      ensures p in x ==> x[p] == y[p]
    {
      assert Lookup(x, p) == Lookup(y, p);
    }
  }

  lemma SameContents(before: Files, after: Files, docs: seq<Doc>)
    requires Contents(before, Names(docs)) == Contents(after, Names(docs))
    ensures forall j | 0 <= j < |docs| :: Lookup(after, Target(docs[j].name)) == Lookup(before, Target(docs[j].name))
  {
    forall j | 0 <= j < |docs|
      ensures Lookup(after, Target(docs[j].name)) == Lookup(before, Target(docs[j].name))
    {
      assert Contents(before, Names(docs))[j] == Lookup(before, Target(docs[j].name));
      assert Contents(after, Names(docs))[j] == Lookup(after, Target(docs[j].name));
    }
  }

  lemma WithoutTempsContents(files: Files, docs: seq<Doc>)
    ensures Contents(WithoutTemps(files, docs), Names(docs)) == Contents(files, Names(docs))
    ensures TokenIsFresh(WithoutTemps(files, docs), docs)
  {
  }

  /** Others wrote while the texts were staged: nothing has been moved, so nothing needs undoing. */
  lemma NothingMovedYet(start: Files, staged: Files, now: Files, docs: seq<Doc>, entries: seq<StagedEntry>)
    requires Distinct(docs) && TokenIsFresh(start, docs)
    requires Midway(start, staged, docs, entries) && InstalledBefore(start, staged, docs, entries, 0)
    requires |entries| == |docs|
    requires forall p: Path | p.Staged? || p.Backup? :: Lookup(now, p) == Lookup(staged, p)
    ensures Midway(WithoutTemps(now, docs), now, docs, entries)
  {
    forall j | 0 <= j < |docs|
      ensures EntryState(WithoutTemps(now, docs), now, docs[j], entries[j])
    {
      assert Ready(start, staged, docs[j], entries[j]);
      assert Lookup(now, Backup(docs[j].name)) == Lookup(staged, Backup(docs[j].name));
    }
  }

  /** If the stream is still the expected one, what was staged is what must be installed. */
  lemma StillReady(start: Files, staged: Files, now: Files, docs: seq<Doc>, entries: seq<StagedEntry>)
    requires Midway(start, staged, docs, entries) && InstalledBefore(start, staged, docs, entries, 0)
    requires |entries| == |docs|
    requires forall p: Path | p.Staged? || p.Backup? :: Lookup(now, p) == Lookup(staged, p)
    requires BaseStream(Names(docs), Contents(now, Names(docs))) == BaseStream(Names(docs), Contents(start, Names(docs)))
    ensures InstalledBefore(WithoutTemps(now, docs), now, docs, entries, 0)
  {
    BaseStreamDecodes(Names(docs), Contents(now, Names(docs)), Contents(start, Names(docs)));
    SameContents(start, now, docs);
    forall j | 0 <= j < |docs|
      ensures Ready(WithoutTemps(now, docs), now, docs[j], entries[j])
    {
      assert Ready(start, staged, docs[j], entries[j]);
      assert Lookup(now, Staged(docs[j].name)) == Lookup(staged, Staged(docs[j].name));
      assert Lookup(WithoutTemps(now, docs), Target(docs[j].name)) == Lookup(start, Target(docs[j].name));
    }
  }

  /** Every document holds its new text. */
  ghost predicate AllNew(start: Files, now: Files, docs: seq<Doc>) {
    forall j | 0 <= j < |docs| ::
      NewText(start, docs[j]).Document? && Lookup(now, Target(docs[j].name)) == Some(NewText(start, docs[j]).text)
  }

  ghost predicate NoTemps(now: Files, docs: seq<Doc>) {
    forall j | 0 <= j < |docs| :: Staged(docs[j].name) !in now && Backup(docs[j].name) !in now
  }

  /** No file but the documents themselves differs, and no temporary file is left. */
  ghost predicate OnlyDocumentsDiffer(start: Files, now: Files, docs: seq<Doc>) {
    OthersKept(start, now, docs, |docs|) && NoTemps(now, docs)
  }

  lemma FullyRestored(start: Files, now: Files, docs: seq<Doc>, n: nat)
    requires n <= |docs| && TokenIsFresh(start, docs) && OthersKept(start, now, docs, n)
    requires forall j | 0 <= j < n :: Restored(start, now, docs[j].name) && Staged(docs[j].name) !in now
    ensures now == start
  {
    forall p: Path
      ensures Lookup(now, p) == Lookup(start, p)
    {
      if !p.Elsewhere? && exists j :: 0 <= j < n && p.name == docs[j].name {
        var j :| 0 <= j < n && p.name == docs[j].name;
        assert Restored(start, now, docs[j].name);
      }
    }
    SameLookups(now, start);
  }

  /** What the commit promises about the directory it leaves, next to what others last left there (`seen`). */
  ghost predicate Promise(r: CommitResult, seen: Files, now: Files, docs: seq<Doc>, unrestored: set<nat>) {
    match r
    case Committed(base) =>
      && AllNew(seen, now, docs) && OnlyDocumentsDiffer(seen, now, docs)
      && base == BaseStream(Names(docs), Contents(now, Names(docs)))
    case Conflict => now == seen
    case Invalid => now == seen
    case Failed(errors) =>
      && errors == 1 + |unrestored| && (forall j | j in unrestored :: j < |docs|)
      && (errors == 1 ==> now == seen)
      && (forall j | 0 <= j < |docs| :: Staged(docs[j].name) !in now)
      && (forall j | 0 <= j < |docs| :: Undone(seen, now, docs[j].name, j in unrestored))
    case Threw => AllNew(seen, now, docs) || forall j | 0 <= j < |docs| :: OldTextKept(seen, now, docs[j].name)
  }

  lemma UntouchedIsUndone(start: Files, now: Files, docs: seq<Doc>, n: nat, unrestored: set<nat>)
    requires Distinct(docs) && n <= |docs| && TokenIsFresh(start, docs) && OthersKept(start, now, docs, n)
    requires forall j | 0 <= j < n :: Undone(start, now, docs[j].name, j in unrestored)
    ensures forall j | 0 <= j < |docs| :: Undone(start, now, docs[j].name, j in unrestored)
    ensures forall j | n <= j < |docs| :: Staged(docs[j].name) !in now
  {
    forall j | n <= j < |docs|
      ensures Undone(start, now, docs[j].name, j in unrestored) && Staged(docs[j].name) !in now
    {
      assert forall k | 0 <= k < n :: docs[j].name != docs[k].name;
      assert Lookup(now, Target(docs[j].name)) == Lookup(start, Target(docs[j].name));
      assert Lookup(now, Backup(docs[j].name)) == Lookup(start, Backup(docs[j].name));
      assert Lookup(now, Staged(docs[j].name)) == Lookup(start, Staged(docs[j].name));
    }
  }

  /** The catch and finally blocks of a commit that failed. */
  method FailCommit(disk: Disk, docs: seq<Doc>, ghost seen: Files, entries: seq<StagedEntry>)
      returns (r: CommitResult, ghost unrestored: set<nat>)
    requires Distinct(docs) && TokenIsFresh(seen, docs) && Midway(seen, disk.files, docs, entries)
    modifies disk
    ensures r.Failed? || r.Threw?
    ensures Promise(r, seen, disk.files, docs, unrestored)
    ensures old(disk.clock) <= disk.clock
    ensures r.Failed? ==> r.errors == 1 + Failures(disk.fails, old(disk.clock), disk.clock)
    ensures r.Threw? ==> Failures(disk.fails, old(disk.clock), disk.clock) > 0
    ensures r.Failed? && (forall e | e in entries :: !e.installed && !e.backedUp) ==> r.errors == 1
  {
    var errors;
    errors, unrestored := RollBack(disk, docs, seen, entries);
    ghost var undone, mid := disk.files, disk.clock;
    UntouchedIsUndone(seen, undone, docs, |entries|, unrestored);
    var cleaned := RemoveStaged(disk, docs, |entries|);
    CleanedIsUndone(seen, undone, disk.files, docs, |entries|, unrestored);
    FailuresAdd(disk.fails, old(disk.clock), mid, disk.clock);
    NoFailures(disk.fails, mid, disk.clock);
    if !cleaned {
      return Threw, unrestored;
    }
    if unrestored == {} {
      FullyRestored(seen, disk.files, docs, |entries|);
    }
    r := Failed(1 + errors);
  }

  lemma CleanedIsUndone(start: Files, before: Files, after: Files, docs: seq<Doc>, n: nat, unrestored: set<nat>)
    requires n <= |docs| && OthersKept(start, before, docs, n) && OthersKept(before, after, docs, n)
    requires forall p: Path | !p.Staged? :: Lookup(after, p) == Lookup(before, p)
    requires forall j | 0 <= j < |docs| :: Undone(start, before, docs[j].name, j in unrestored)
    requires forall j | n <= j < |docs| :: Staged(docs[j].name) !in before
    requires Distinct(docs)
    ensures forall j | 0 <= j < |docs| :: Undone(start, after, docs[j].name, j in unrestored)
    ensures OthersKept(start, after, docs, n)
    ensures forall j | n <= j < |docs| :: Staged(docs[j].name) !in after
  {
    forall j | 0 <= j < |docs|
      ensures Undone(start, after, docs[j].name, j in unrestored)
      ensures n <= j ==> Staged(docs[j].name) !in after
    {
      assert Lookup(after, Target(docs[j].name)) == Lookup(before, Target(docs[j].name));
      assert Lookup(after, Backup(docs[j].name)) == Lookup(before, Backup(docs[j].name));
      if n <= j {
        assert forall k | 0 <= k < n :: docs[j].name != docs[k].name;
        assert Lookup(after, Staged(docs[j].name)) == Lookup(before, Staged(docs[j].name));
      }
    }
  }

  lemma InstalledIsAllNew(start: Files, now: Files, docs: seq<Doc>, entries: seq<StagedEntry>)
    requires Midway(start, now, docs, entries) && |entries| == |docs|
    requires InstalledBefore(start, now, docs, entries, |docs|)
    ensures AllNew(start, now, docs)
  {
    forall j | 0 <= j < |docs|
      ensures NewText(start, docs[j]).Document? && Lookup(now, Target(docs[j].name)) == Some(NewText(start, docs[j]).text)
    {
      assert EntryState(start, now, docs[j], entries[j]);
    }
  }

  lemma AllNewFrame(start: Files, before: Files, after: Files, docs: seq<Doc>)
    requires AllNew(start, before, docs)
    requires forall p: Path | p.Target? :: Lookup(after, p) == Lookup(before, p)
    ensures AllNew(start, after, docs)
  {
    forall j | 0 <= j < |docs|
      ensures Lookup(after, Target(docs[j].name)) == Lookup(before, Target(docs[j].name))
    {
    }
  }

  /** The finally block and the clean-up of a commit whose every document is installed. */
  method FinishCommit(disk: Disk, docs: seq<Doc>, ghost seen: Files, entries: seq<StagedEntry>)
      returns (r: CommitResult)
    requires Distinct(docs) && Midway(seen, disk.files, docs, entries) && |entries| == |docs|
    requires InstalledBefore(seen, disk.files, docs, entries, |docs|)
    modifies disk
    ensures r.Committed? || r.Threw?
    ensures Promise(r, seen, disk.files, docs, {})
    ensures old(disk.clock) <= disk.clock && (r.Committed? <==> NoneFails(disk.fails, old(disk.clock), disk.clock))
  {
    ghost var installed := disk.files;
    InstalledIsAllNew(seen, installed, docs, entries);
    var cleaned := RemoveStaged(disk, docs, |docs|);
    AllNewFrame(seen, installed, disk.files, docs);
    if !cleaned {
      return Threw;
    }
    ghost var unstaged := disk.files;
    cleaned := RemoveBackups(disk, docs, entries);
    AllNewFrame(seen, unstaged, disk.files, docs);
    if !cleaned {
      return Threw;
    }
    NothingLeft(seen, installed, unstaged, disk.files, docs, entries);
    ghost var mid := disk.clock;
    var base := CaptureDocumentsBase(disk, Names(docs));
    AllAreRead(seen, disk.files, docs, disk.fails, mid);
    r := if base.None? then Threw else Committed(base.value);
  }

  /** Once every document is there, every read counts. */
  lemma AllAreRead(start: Files, now: Files, docs: seq<Doc>, fails: Failing, clock: nat)
    requires AllNew(start, now, docs)
    ensures CaptureFails(now, Names(docs), fails, clock) <==> !NoneFails(fails, clock, clock + 1 + |docs|)
  {
    forall i | 0 <= i < |docs|
      ensures Target(Names(docs)[i]) in now
    {
      assert Lookup(now, Target(docs[i].name)).Some?;
    }
    if !NoneFails(fails, clock, clock + 1 + |docs|) {
      var k: nat :| clock <= k < clock + 1 + |docs| && fails(k);
      if k > clock {
        assert ReadFailsAt(now, Names(docs), fails, clock, k - clock - 1);
      }
    }
  }

  lemma NothingLeft(start: Files, installed: Files, unstaged: Files, now: Files, docs: seq<Doc>,
                    entries: seq<StagedEntry>)
    requires Midway(start, installed, docs, entries) && |entries| == |docs|
    requires OthersKept(installed, unstaged, docs, |docs|) && OthersKept(unstaged, now, docs, |docs|)
    requires forall p: Path | !p.Staged? :: Lookup(unstaged, p) == Lookup(installed, p)
    requires forall p: Path | !p.Backup? :: Lookup(now, p) == Lookup(unstaged, p)
    requires forall j | 0 <= j < |docs| :: Staged(docs[j].name) !in unstaged
    requires forall j | 0 <= j < |docs| && entries[j].backedUp :: Backup(docs[j].name) !in now
    requires forall j | 0 <= j < |docs| && Backup(docs[j].name) !in unstaged :: Backup(docs[j].name) !in now
    ensures OnlyDocumentsDiffer(start, now, docs)
  {
    forall j | 0 <= j < |docs|
      ensures Staged(docs[j].name) !in now && Backup(docs[j].name) !in now
    {
      assert EntryState(start, installed, docs[j], entries[j]);
      assert Lookup(unstaged, Backup(docs[j].name)) == Lookup(installed, Backup(docs[j].name));
      assert Lookup(now, Staged(docs[j].name)) == Lookup(unstaged, Staged(docs[j].name));
    }
  }

  /** Leaving with a conflict: only the staged files have to go. */
  method LeaveInConflict(disk: Disk, docs: seq<Doc>, ghost seen: Files, entries: seq<StagedEntry>)
      returns (r: CommitResult)
    requires |entries| == |docs| && seen == WithoutTemps(disk.files, docs)
    requires forall j | 0 <= j < |docs| :: Backup(docs[j].name) !in disk.files
    modifies disk
    ensures r.Conflict? || r.Threw?
    ensures Promise(r, seen, disk.files, docs, {})
    ensures old(disk.clock) <= disk.clock && (r.Conflict? <==> NoneFails(disk.fails, old(disk.clock), disk.clock))
  {
    ghost var before := disk.files;
    var cleaned := RemoveStaged(disk, docs, |docs|);
    forall j | 0 <= j < |docs|
      ensures Restored(seen, disk.files, docs[j].name)
    {
      assert Lookup(disk.files, Target(docs[j].name)) == Lookup(before, Target(docs[j].name));
      assert Lookup(disk.files, Backup(docs[j].name)) == Lookup(before, Backup(docs[j].name));
    }
    if !cleaned {
      return Threw;
    }
    OthersKeptTrans(seen, before, disk.files, docs);
    FullyRestored(seen, disk.files, docs, |docs|);
    r := Conflict;
  }

  lemma OthersKeptTrans(start: Files, before: Files, after: Files, docs: seq<Doc>)
    requires start == WithoutTemps(before, docs) && OthersKept(before, after, docs, |docs|)
    ensures OthersKept(start, after, docs, |docs|) && TokenIsFresh(start, docs)
  {
  }

  /** The directory that a commit has to leave as it is, or to change in the documents alone: the one at the start, or,
      once everything is staged, the one others have made of it. */
  function Seen(start: Files, theirs: Files, allStaged: bool): Files {
    if allStaged then Overwritten(start, theirs) else start
  }

  /** The documents are not the ones the caller expects. */
  predicate Unexpected(files: Files, docs: seq<Doc>, expectedBase: string) {
    BaseStream(Names(docs), Contents(files, Names(docs))) != expectedBase
  }

  /** The directory is not in order, or cannot be captured a first time. */
  predicate Unreadable(files: Files, docs: seq<Doc>, fails: Failing, clock: nat) {
    fails(clock) || CaptureFails(files, Names(docs), fails, clock + 1)
  }

  /** The directory cannot be made, or some document cannot be staged. */
  predicate Unstageable(files: Files, docs: seq<Doc>, fails: Failing, clock: nat) {
    fails(clock + 2 + |docs|) || StagingFails(files, docs, fails, clock + 3 + |docs|)
  }

  /** What comes of a commit on which no operation fails. */
  ghost predicate Verdict(r: CommitResult, start: Files, theirs: Files, docs: seq<Doc>, expectedBase: string) {
    if Unexpected(start, docs, expectedBase) then r.Conflict?
    else if !AllRender(start, docs) then r == Failed(1)
    else if Unexpected(Overwritten(start, theirs), docs, expectedBase) then r.Conflict?
    else r.Committed?
  }

  /** What comes of a commit once everything is staged, at operation `clock`: it fails if the second capture does; it is
      in conflict if the documents are not the expected ones any more; and it is committed if and only if no operation
      fails from then on, every one that does being counted, unless a clean-up fails. */
  ghost predicate StagedOutcome(r: CommitResult, seen: Files, docs: seq<Doc>, expectedBase: string, fails: Failing,
                                clock: nat, end: nat) {
    var captured := clock + 1 + |docs|;
    if CaptureFails(seen, Names(docs), fails, clock) then r == Failed(1) || r.Threw?
    else if Unexpected(seen, docs, expectedBase) then
      captured <= end && if NoneFails(fails, captured, end) then r.Conflict? else r.Threw?
    else
      && captured <= end && (r.Committed? <==> NoneFails(fails, captured, end))
      && (!r.Committed? ==> r.Threw? || r == Failed(Failures(fails, captured, end)))
  }

  /** Documents that are ready to be installed have not been moved. */
  lemma NotMoved(start: Files, now: Files, docs: seq<Doc>, entries: seq<StagedEntry>)
    requires InstalledBefore(start, now, docs, entries, 0)
    ensures forall e | e in entries :: !e.installed && !e.backedUp
  {
    forall e | e in entries
      ensures !e.installed && !e.backedUp
    {
      var j :| 0 <= j < |entries| && entries[j] == e;
      assert Ready(start, now, docs[j], entries[j]);
    }
  }

  /** The commit from the moment everything is staged. */
  method CommitStaged(disk: Disk, docs: seq<Doc>, expectedBase: string, theirs: Files,
                      ghost start: Files, staged: seq<StagedEntry>)
      returns (r: CommitResult, ghost unrestored: set<nat>)
    requires Distinct(docs) && TokenIsFresh(start, docs) && |staged| == |docs|
    requires Midway(start, disk.files, docs, staged) && InstalledBefore(start, disk.files, docs, staged, 0)
    requires BaseStream(Names(docs), Contents(start, Names(docs))) == expectedBase
    modifies disk
    ensures Promise(r, Overwritten(start, theirs), disk.files, docs, unrestored) && !r.Invalid?
    ensures old(disk.clock) < disk.clock
    ensures StagedOutcome(r, Overwritten(start, theirs), docs, expectedBase, disk.fails, old(disk.clock), disk.clock)
    ensures NoneFails(disk.fails, old(disk.clock), disk.clock) ==>
              if Unexpected(Overwritten(start, theirs), docs, expectedBase) then r.Conflict? else r.Committed?
    ensures r.Committed? ==> !Unexpected(Overwritten(start, theirs), docs, expectedBase)
  {
    ghost var before := disk.files;
    ghost var seen := LetOthersWrite(disk, docs, theirs, start);
    r, unrestored := CaptureAndConclude(disk, docs, expectedBase, start, before, seen, staged);
  }

  /** Others write; what they see afterwards is `seen`. */
  method LetOthersWrite(disk: Disk, docs: seq<Doc>, theirs: Files, ghost start: Files) returns (ghost seen: Files)
    requires TokenIsFresh(start, docs) && OthersKept(start, disk.files, docs, |docs|)
    modifies disk`files
    ensures seen == Overwritten(start, theirs) == WithoutTemps(disk.files, docs) && TokenIsFresh(seen, docs)
    ensures Contents(seen, Names(docs)) == Contents(disk.files, Names(docs))
    ensures forall p: Path | p.Staged? || p.Backup? :: Lookup(disk.files, p) == Lookup(old(disk.files), p)
  {
    seen := Overwritten(start, theirs);
    ghost var before := disk.files;
    OthersWrite(disk, theirs);
    TheySeeTheirs(start, before, theirs, docs);
    WithoutTempsContents(disk.files, docs);
  }

  /** The second capture, and what follows from it. */
  method CaptureAndConclude(disk: Disk, docs: seq<Doc>, expectedBase: string,
                            ghost start: Files, ghost before: Files, ghost seen: Files, staged: seq<StagedEntry>)
      returns (r: CommitResult, ghost unrestored: set<nat>)
    requires Distinct(docs) && TokenIsFresh(start, docs) && |staged| == |docs|
    requires Midway(start, before, docs, staged) && InstalledBefore(start, before, docs, staged, 0)
    requires forall p: Path | p.Staged? || p.Backup? :: Lookup(disk.files, p) == Lookup(before, p)
    requires seen == WithoutTemps(disk.files, docs) && TokenIsFresh(seen, docs)
    requires Contents(seen, Names(docs)) == Contents(disk.files, Names(docs))
    requires expectedBase == BaseStream(Names(docs), Contents(start, Names(docs)))
    modifies disk
    ensures Promise(r, seen, disk.files, docs, unrestored) && !r.Invalid? && old(disk.clock) < disk.clock
    ensures StagedOutcome(r, seen, docs, expectedBase, disk.fails, old(disk.clock), disk.clock)
    ensures NoneFails(disk.fails, old(disk.clock), disk.clock) ==>
              if Unexpected(seen, docs, expectedBase) then r.Conflict? else r.Committed?
    ensures r.Committed? ==> !Unexpected(seen, docs, expectedBase)
  {
    ghost var c := disk.clock;
    SameReads(seen, disk.files, docs, disk.fails, c);
    var base := CaptureDocumentsBase(disk, Names(docs));
    ghost var mid := disk.clock;
    r, unrestored := ConcludeCommit(disk, docs, expectedBase, base, start, before, seen, staged);
    StagedOutcomeIs(r, seen, docs, expectedBase, base, disk.fails, c, mid, disk.clock);
  }

  lemma StagedOutcomeIs(r: CommitResult, seen: Files, docs: seq<Doc>, expectedBase: string, base: Option<string>,
                        fails: Failing, clock: nat, mid: nat, end: nat)
    requires base.None? <==> CaptureFails(seen, Names(docs), fails, clock)
    requires base.Some? ==> mid == clock + 1 + |docs| && base.value == BaseStream(Names(docs), Contents(seen, Names(docs)))
    requires base.None? ==> (r == Failed(1) || r.Threw?) && !NoneFails(fails, clock, mid)
    requires clock < mid <= end
    requires base.Some? && base.value != expectedBase ==> if NoneFails(fails, mid, end) then r.Conflict? else r.Threw?
    requires base == Some(expectedBase) ==>
               && (r.Committed? <==> NoneFails(fails, mid, end))
               && (!r.Committed? ==> r.Threw? || r == Failed(Failures(fails, mid, end)))
    ensures StagedOutcome(r, seen, docs, expectedBase, fails, clock, end)
    ensures NoneFails(fails, clock, end) ==>
              if Unexpected(seen, docs, expectedBase) then r.Conflict? else r.Committed?
    ensures r.Committed? ==> !Unexpected(seen, docs, expectedBase)
  {
  }

  /** The commit from its second capture on. */
  method ConcludeCommit(disk: Disk, docs: seq<Doc>, expectedBase: string, base: Option<string>,
                        ghost start: Files, ghost before: Files, ghost seen: Files, staged: seq<StagedEntry>)
      returns (r: CommitResult, ghost unrestored: set<nat>)
    requires Distinct(docs) && TokenIsFresh(start, docs) && |staged| == |docs|
    requires Midway(start, before, docs, staged) && InstalledBefore(start, before, docs, staged, 0)
    requires forall p: Path | p.Staged? || p.Backup? :: Lookup(disk.files, p) == Lookup(before, p)
    requires seen == WithoutTemps(disk.files, docs) && TokenIsFresh(seen, docs)
    requires expectedBase == BaseStream(Names(docs), Contents(start, Names(docs)))
    requires base.Some? ==> base.value == BaseStream(Names(docs), Contents(disk.files, Names(docs)))
    modifies disk
    ensures Promise(r, seen, disk.files, docs, unrestored) && !r.Invalid? && old(disk.clock) <= disk.clock
    ensures base.None? ==> r == Failed(1) || r.Threw?
    ensures base.Some? && base.value != expectedBase ==>
              if NoneFails(disk.fails, old(disk.clock), disk.clock) then r.Conflict? else r.Threw?
    ensures base == Some(expectedBase) ==>
              && (r.Committed? <==> NoneFails(disk.fails, old(disk.clock), disk.clock))
              && (!r.Committed? ==> r.Threw? || r == Failed(Failures(disk.fails, old(disk.clock), disk.clock)))
  {
    unrestored := {};
    NothingMovedYet(start, before, disk.files, docs, staged);
    if base.None? {
      NotMoved(start, before, docs, staged);
      r, unrestored := FailCommit(disk, docs, seen, staged);
      return;
    }
    if base.value != expectedBase {
      NoBackupsYet(start, before, disk.files, docs, staged);
      r := LeaveInConflict(disk, docs, seen, staged);
      return;
    }
    StillReady(start, before, disk.files, docs, staged);
    r, unrestored := InstallAndFinish(disk, docs, seen, staged);
  }

  /** The same documents are there to be read. */
  lemma SameReads(seen: Files, now: Files, docs: seq<Doc>, fails: Failing, clock: nat)
    requires seen == WithoutTemps(now, docs)
    ensures CaptureFails(seen, Names(docs), fails, clock) <==> CaptureFails(now, Names(docs), fails, clock)
  {
    assert forall i | 0 <= i < |docs| ::
        ReadFailsAt(seen, Names(docs), fails, clock, i) <==> ReadFailsAt(now, Names(docs), fails, clock, i);
  }

  /** Everything is installed, or everything is rolled back. */
  method InstallAndFinish(disk: Disk, docs: seq<Doc>, ghost seen: Files, staged: seq<StagedEntry>)
      returns (r: CommitResult, ghost unrestored: set<nat>)
    requires Distinct(docs) && TokenIsFresh(seen, docs) && |staged| == |docs|
    requires Midway(seen, disk.files, docs, staged) && InstalledBefore(seen, disk.files, docs, staged, 0)
    modifies disk
    ensures Promise(r, seen, disk.files, docs, unrestored) && !r.Invalid? && !r.Conflict?
    ensures old(disk.clock) <= disk.clock && (r.Committed? <==> NoneFails(disk.fails, old(disk.clock), disk.clock))
    ensures r.Failed? ==> r.errors == Failures(disk.fails, old(disk.clock), disk.clock)
  {
    unrestored := {};
    ghost var c := disk.clock;
    var entries, ok := InstallDocuments(disk, docs, seen, staged);
    ghost var mid := disk.clock;
    if !ok {
      r, unrestored := FailCommit(disk, docs, seen, entries);
    } else {
      r := FinishCommit(disk, docs, seen, entries);
    }
    FailuresAdd(disk.fails, c, mid, disk.clock);
    NoFailures(disk.fails, c, disk.clock);
    NoFailures(disk.fails, mid, disk.clock);
  }

  /** Nothing has been moved when a staging fails, so nothing is rolled back. */
  method FailStaging(disk: Disk, docs: seq<Doc>, ghost start: Files, entries: seq<StagedEntry>)
      returns (r: CommitResult, ghost unrestored: set<nat>)
    requires Distinct(docs) && TokenIsFresh(start, docs)
    requires Midway(start, disk.files, docs, entries) && InstalledBefore(start, disk.files, docs, entries, 0)
    modifies disk
    ensures Promise(r, start, disk.files, docs, unrestored) && (r == Failed(1) || r.Threw?)
    ensures old(disk.clock) <= disk.clock && (NoneFails(disk.fails, old(disk.clock), disk.clock) ==> r == Failed(1))
  {
    NotMoved(start, disk.files, docs, entries);
    ghost var c := disk.clock;
    r, unrestored := FailCommit(disk, docs, start, entries);
    NoFailures(disk.fails, c, disk.clock);
  }

  /** The directory is made, and the documents are staged. */
  method MakeAndStage(disk: Disk, docs: seq<Doc>) returns (entries: seq<StagedEntry>, ok: bool)
    requires Distinct(docs) && TokenIsFresh(disk.files, docs)
    modifies disk
    ensures Midway(old(disk.files), disk.files, docs, entries)
    ensures InstalledBefore(old(disk.files), disk.files, docs, entries, 0)
    ensures old(disk.clock) < disk.clock
    ensures ok <==> !disk.fails(old(disk.clock)) && !StagingFails(old(disk.files), docs, disk.fails, old(disk.clock) + 1)
    ensures ok ==> |entries| == |docs| && disk.clock == old(disk.clock) + 1 + 2 * |docs| && AllRender(old(disk.files), docs)
    ensures !ok ==> !AllRender(old(disk.files), docs) || !NoneFails(disk.fails, old(disk.clock), disk.clock)
  {
    ghost var start := disk.files;
    entries := [];
    ok := disk.Attempt();
    if ok {
      ghost var staging := disk.clock;
      entries, ok := StageDocuments(disk, docs);
      if ok {
        StagedRender(start, docs, disk.fails, staging);
      }
    }
  }

  /** The commit of documents that are the expected ones at first. */
  method StageAndCommit(disk: Disk, docs: seq<Doc>, expectedBase: string, theirs: Files)
      returns (r: CommitResult, allStaged: bool, ghost unrestored: set<nat>, ghost second: nat)
    requires Distinct(docs) && TokenIsFresh(disk.files, docs)
    requires !Unexpected(disk.files, docs, expectedBase)
    modifies disk
    ensures Promise(r, Seen(old(disk.files), theirs, allStaged), disk.files, docs, unrestored) && !r.Invalid?
    ensures old(disk.clock) < disk.clock
    ensures allStaged <==>
            !disk.fails(old(disk.clock)) && !StagingFails(old(disk.files), docs, disk.fails, old(disk.clock) + 1)
    ensures !allStaged ==> r == Failed(1) || r.Threw?
    ensures allStaged ==>
              && second == old(disk.clock) + 1 + 2 * |docs|
              && StagedOutcome(r, Overwritten(old(disk.files), theirs), docs, expectedBase, disk.fails, second, disk.clock)
    ensures NoneFails(disk.fails, old(disk.clock), disk.clock) ==> Verdict(r, old(disk.files), theirs, docs, expectedBase)
    ensures r.Committed? ==> !Unexpected(Overwritten(old(disk.files), theirs), docs, expectedBase)
  {
    ghost var start := disk.files;
    var entries;
    entries, allStaged := MakeAndStage(disk, docs);
    second := disk.clock;
    if allStaged {
      r, unrestored := CommitStaged(disk, docs, expectedBase, theirs, start, entries);
    } else {
      r, unrestored := FailStaging(disk, docs, start, entries);
    }
  }

  /** The commit, step by step. */
  method RunCommit(disk: Disk, docs: seq<Doc>, expectedBase: string, theirs: Files)
      returns (r: CommitResult, ghost allStaged: bool, ghost unrestored: set<nat>, ghost second: nat)
    requires Distinct(docs) && TokenIsFresh(disk.files, docs)
    modifies disk
    ensures Promise(r, Seen(old(disk.files), theirs, allStaged), disk.files, docs, unrestored)
    ensures r.Invalid? <==> Unreadable(old(disk.files), docs, disk.fails, old(disk.clock))
    ensures r.Conflict? && !allStaged <==>
            !Unreadable(old(disk.files), docs, disk.fails, old(disk.clock)) && Unexpected(old(disk.files), docs, expectedBase)
    ensures allStaged <==>
            && !Unreadable(old(disk.files), docs, disk.fails, old(disk.clock))
            && !Unexpected(old(disk.files), docs, expectedBase)
            && !Unstageable(old(disk.files), docs, disk.fails, old(disk.clock))
    ensures !allStaged && !r.Invalid? && !r.Conflict? ==> r == Failed(1) || r.Threw?
    ensures allStaged ==>
              && second == old(disk.clock) + 3 + 3 * |docs|
              && StagedOutcome(r, Overwritten(old(disk.files), theirs), docs, expectedBase, disk.fails, second, disk.clock)
    ensures old(disk.clock) < disk.clock
    ensures NoneFails(disk.fails, old(disk.clock), disk.clock) ==> Verdict(r, old(disk.files), theirs, docs, expectedBase)
    ensures r.Committed? ==> !Unexpected(Overwritten(old(disk.files), theirs), docs, expectedBase)
  {
    allStaged, unrestored, second := false, {}, 0;
    var inOrder := disk.Attempt();
    if !inOrder {
      return Invalid, allStaged, unrestored, second;
    }
    var base := CaptureDocumentsBase(disk, Names(docs));
    if base.None? {
      return Invalid, allStaged, unrestored, second;
    }
    if base.value != expectedBase {
      return Conflict, allStaged, unrestored, second;
    }
    r, allStaged, unrestored, second := StageAndCommit(disk, docs, expectedBase, theirs);
  }

  lemma SameDocuments(before: Files, after: Files, docs: seq<Doc>)
    requires BaseStream(Names(docs), Contents(after, Names(docs))) == BaseStream(Names(docs), Contents(before, Names(docs)))
    ensures forall j | 0 <= j < |docs| :: Lookup(after, Target(docs[j].name)) == Lookup(before, Target(docs[j].name))
  {
    BaseStreamDecodes(Names(docs), Contents(after, Names(docs)), Contents(before, Names(docs)));
    SameContents(before, after, docs);
  }

  /** Writing the whole bundle, while others put `theirs` into the directory once everything is staged. The result follows
      from the files, what others write, the expected base, and the operations that fail. */
  method CommitDocumentsBundle(disk: Disk, docs: seq<Doc>, expectedBase: string, theirs: Files)
      returns (r: CommitResult, ghost allStaged: bool, ghost unrestored: set<nat>)
    requires Distinct(docs) && TokenIsFresh(disk.files, docs)
    modifies disk
    ensures Promise(r, Seen(old(disk.files), theirs, allStaged), disk.files, docs, unrestored)
    ensures r.Invalid? <==> Unreadable(old(disk.files), docs, disk.fails, old(disk.clock))
    ensures r.Conflict? && !allStaged <==>
            !Unreadable(old(disk.files), docs, disk.fails, old(disk.clock)) && Unexpected(old(disk.files), docs, expectedBase)
    ensures allStaged <==>
            && !Unreadable(old(disk.files), docs, disk.fails, old(disk.clock))
            && !Unexpected(old(disk.files), docs, expectedBase)
            && !Unstageable(old(disk.files), docs, disk.fails, old(disk.clock))
    ensures !allStaged && !r.Invalid? && !r.Conflict? ==> r == Failed(1) || r.Threw?
    ensures allStaged ==> StagedOutcome(r, Overwritten(old(disk.files), theirs), docs, expectedBase, disk.fails,
                                        old(disk.clock) + 3 + 3 * |docs|, disk.clock)
    ensures old(disk.clock) < disk.clock
    ensures NoneFails(disk.fails, old(disk.clock), disk.clock) ==> Verdict(r, old(disk.files), theirs, docs, expectedBase)
    ensures r.Committed? ==> forall j | 0 <= j < |docs| ::
              Lookup(Overwritten(old(disk.files), theirs), Target(docs[j].name)) == Lookup(old(disk.files), Target(docs[j].name))
    ensures theirs == old(disk.files) && (r.Conflict? || r.Invalid? || r == Failed(1)) ==> disk.files == old(disk.files)
  {
    ghost var start := disk.files;
    ghost var second;
    r, allStaged, unrestored, second := RunCommit(disk, docs, expectedBase, theirs);
    NobodyWrites(start);
    if r.Committed? {
      SameDocuments(start, Overwritten(start, theirs), docs);
    }
  }

  lemma NoBackupsYet(start: Files, staged: Files, now: Files, docs: seq<Doc>, entries: seq<StagedEntry>)
    requires Midway(start, staged, docs, entries) && InstalledBefore(start, staged, docs, entries, 0)
    requires |entries| == |docs|
    requires forall p: Path | p.Staged? || p.Backup? :: Lookup(now, p) == Lookup(staged, p)
    ensures forall j | 0 <= j < |docs| :: Backup(docs[j].name) !in now
  {
    forall j | 0 <= j < |docs|
      ensures Backup(docs[j].name) !in now
    {
      assert EntryState(start, staged, docs[j], entries[j]) && Ready(start, staged, docs[j], entries[j]);
      assert Lookup(now, Backup(docs[j].name)) == Lookup(staged, Backup(docs[j].name));
    }
  }

  // ----- The three documents -----

  function ForgeDocs(context: string, adr: string, handoff: string): seq<Doc> {
    [ManagedDoc("CONTEXT.md", "CONTEXT", context), ManagedDoc("ADR.md", "ADR", adr),
     ManagedDoc("handoff.md", "HANDOFF", handoff)]
  }

  /** The document is there and shows the trimmed body in its block. */
  predicate ShowsBody(files: Files, name: string, marker: string, body: string) {
    Target(name) in files && ReadBlock(BeginMark(marker), EndMark(marker), files[Target(name)]) == Some(Trim(body))
  }

  lemma NewTextShowsBody(start: Files, now: Files, name: string, marker: string, body: string)
    requires IsMarker(marker)
    requires NewText(start, ManagedDoc(name, marker, body)).Document?
    requires Lookup(now, Target(name)) == Some(NewText(start, ManagedDoc(name, marker, body)).text)
    ensures ShowsBody(now, name, marker, body)
  {
    ReadAfterWrite(marker, body, Lookup(start, Target(name)));
  }

  lemma ThreeFiles(context: string, adr: string, handoff: string)
    ensures Distinct(ForgeDocs(context, adr, handoff))
  {
    assert "CONTEXT.md"[0] == 'C' && "ADR.md"[0] == 'A' && "handoff.md"[0] == 'h';
  }

  lemma ForgeMarkers()
    ensures IsMarker("CONTEXT") && IsMarker("ADR") && IsMarker("HANDOFF")
  {
  }

  lemma AllShowBodies(seen: Files, now: Files, context: string, adr: string, handoff: string)
    requires AllNew(seen, now, ForgeDocs(context, adr, handoff))
    ensures ShowsBody(now, "CONTEXT.md", "CONTEXT", context)
    ensures ShowsBody(now, "ADR.md", "ADR", adr)
    ensures ShowsBody(now, "handoff.md", "HANDOFF", handoff)
  {
    var docs := ForgeDocs(context, adr, handoff);
    ForgeMarkers();
    OneShowsBody(seen, now, docs, 0, "CONTEXT.md", "CONTEXT", context);
    OneShowsBody(seen, now, docs, 1, "ADR.md", "ADR", adr);
    OneShowsBody(seen, now, docs, 2, "handoff.md", "HANDOFF", handoff);
  }

  lemma OneShowsBody(seen: Files, now: Files, docs: seq<Doc>, j: nat, name: string, marker: string, body: string)
    requires AllNew(seen, now, docs) && j < |docs| && docs[j] == ManagedDoc(name, marker, body) && IsMarker(marker)
    ensures ShowsBody(now, name, marker, body)
  {
    assert NewText(seen, docs[j]).Document?;
    NewTextShowsBody(seen, now, name, marker, body);
  }

  /** The commit of the context, the decision records and the hand-off: committed, each file shows its body. */
  method CommitForgeDocuments(disk: Disk, context: string, adr: string, handoff: string, expectedBase: string,
                              theirs: Files)
      returns (r: CommitResult, ghost allStaged: bool, ghost unrestored: set<nat>)
    requires TokenIsFresh(disk.files, ForgeDocs(context, adr, handoff))
    modifies disk
    ensures Promise(r, Seen(old(disk.files), theirs, allStaged), disk.files, ForgeDocs(context, adr, handoff), unrestored)
    ensures r.Committed? ==>
              && ShowsBody(disk.files, "CONTEXT.md", "CONTEXT", context)
              && ShowsBody(disk.files, "ADR.md", "ADR", adr)
              && ShowsBody(disk.files, "handoff.md", "HANDOFF", handoff)
    ensures NoneFails(disk.fails, old(disk.clock), disk.clock) ==>
              Verdict(r, old(disk.files), theirs, ForgeDocs(context, adr, handoff), expectedBase)
    ensures theirs == old(disk.files) && (r.Conflict? || r.Invalid? || r == Failed(1)) ==> disk.files == old(disk.files)
  {
    ghost var seen := Overwritten(disk.files, theirs);
    ThreeFiles(context, adr, handoff);
    r, allStaged, unrestored := CommitDocumentsBundle(disk, ForgeDocs(context, adr, handoff), expectedBase, theirs);
    if r.Committed? {
      AllShowBodies(seen, disk.files, context, adr, handoff);
    }
  }
}
