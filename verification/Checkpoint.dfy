/** `src-tauri/src/checkpoint.rs`: what each session changed in a shared checkout, as
    snapshots taken before and after its edits; undo, keep, and a restartable transfer
    into another checkout. */
module Checkpoint {
  import opened Wrappers

  const MAX_SNAPSHOT_FILES: nat := 500
  const MAX_TEXT_FILE_BYTES: nat := 8 * 1024 * 1024

  /** Permissions of a file that did not exist before it was written. */
  const NEW_FILE_MODE: nat := 0x1A4

  type Path = string
  type Bytes = seq<bv8>

  datatype File = File(bytes: Bytes, mode: nat)

  /** What a commit records of a file. */
  datatype Blob = Blob(bytes: Bytes, executable: bool)

  datatype Commit = Commit(hash: nat, tree: map<Path, Blob>)

  /** A project root: its files, the commit it is on (none outside a repository), and
      the files git ignores there. */
  datatype Checkout = Checkout(tree: map<Path, File>, head: Option<Commit>, ignored: set<Path>)

  datatype Snapshot = Missing | Contents(bytes: Bytes, mode: nat) | Skipped

  datatype Manifest = Manifest(
    cwd: Path, files: map<Path, Snapshot>, touched: set<Path>, tracked: set<Path>,
    prepared: set<Path>, after: map<Path, Snapshot>, diverged: set<Path>)

  datatype Entry = Entry(path: Path, exact: bool, undoable: bool)

  datatype Failure =
    | NotADirectory
    | NoCheckpoint
    | SameCheckout
    | NotARepository
    | HeadMoved
    | DivergedFiles
    | NotCaptured
    | CannotCheckpoint
    | BoundaryMissing
    | ChangedAfterCheckpoint
    | NotAttributed
    | LeadChanged
    | ChangedOutside

  /** A transfer that reached its end, or that the process did not survive. */
  datatype Transfer = Finished(files: seq<Path>, alreadyApplied: nat) | Interrupted

  datatype Store = Store(manifests: map<string, Manifest>, checkouts: map<Path, Checkout>)

  // --------------------------------------------------------------- snapshots

  function Take(c: Checkout, p: Path): Snapshot {
    if p !in c.tree then Missing
    else if |c.tree[p].bytes| > MAX_TEXT_FILE_BYTES then Skipped
    else Contents(c.tree[p].bytes, c.tree[p].mode)
  }

  /** `FileState`: what review and undo compare. Modes do not count. */
  datatype FileState = Absent | Text(bytes: Bytes) | TooLarge

  function View(s: Snapshot): FileState {
    match s
    case Missing => Absent
    case Contents(bytes, _) => Text(bytes)
    case Skipped => TooLarge
  }

  function WorktreeView(c: Checkout, p: Path): FileState { View(Take(c, p)) }

  /** What a transfer compares: the state and the mode. */
  function Stored(s: Snapshot): (FileState, Option<nat>) {
    (View(s), if s.Contents? then Some(s.mode) else None)
  }

  function Seen(c: Checkout, p: Path): (FileState, Option<nat>) {
    (WorktreeView(c, p), if p in c.tree then Some(c.tree[p].mode) else None)
  }

  // --------------------------------------------------------------------- git

  function Executable(mode: nat): bool { mode / 64 % 2 == 1 }

  function GitView(c: Checkout, p: Path): Option<Blob> {
    if p in c.tree then Some(Blob(c.tree[p].bytes, Executable(c.tree[p].mode))) else None
  }

  predicate InHead(c: Checkout, p: Path) { c.head.Some? && p in c.head.value.tree }

  function HeadView(c: Checkout, p: Path): Option<Blob> {
    if InHead(c, p) then Some(c.head.value.tree[p]) else None
  }

  /** Git reports on a path: it is committed, or not ignored. */
  predicate Visible(c: Checkout, p: Path) { InHead(c, p) || p !in c.ignored }

  predicate IsDirty(c: Checkout, p: Path) {
    c.head.Some? && Visible(c, p) && GitView(c, p) != HeadView(c, p)
  }

  function Candidates(c: Checkout): set<Path> {
    c.tree.Keys + if c.head.Some? then c.head.value.tree.Keys else {}
  }

  function Dirty(c: Checkout): (d: set<Path>)
    ensures forall p :: p in d <==> IsDirty(c, p)
  {
    set p | p in Candidates(c) && IsDirty(c, p)
  }

  // ------------------------------------------------------------- boundaries

  predicate AfterMatches(m: Manifest, c: Checkout, p: Path) {
    p in m.after && WorktreeView(c, p) == View(m.after[p])
  }

  function Release(m: Manifest, p: Path): Manifest {
    m.(files := m.files - {p}, touched := m.touched - {p}, tracked := m.tracked - {p},
       prepared := m.prepared - {p}, after := m.after - {p}, diverged := m.diverged - {p})
  }

  /** A tool is about to edit `p`. Only the first boundary takes a snapshot; later ones
      notice that somebody else changed the file meanwhile. */
  function PrepareOne(m: Manifest, c: Checkout, p: Path): Manifest {
    if p in m.touched && p in m.prepared then
      if AfterMatches(m, c, p) then m else m.(diverged := m.diverged + {p})
    else if p in m.prepared then m
    else
      var start := if p in m.touched then Release(m, p) else m;
      start.(files := start.files[p := Take(c, p)], prepared := start.prepared + {p},
             tracked := if InHead(c, p) then start.tracked + {p} else start.tracked)
  }

  function PrepareAll(m: Manifest, c: Checkout, paths: seq<Path>): Manifest
    decreases |paths|
  {
    if paths == [] then m else PrepareAll(PrepareOne(m, c, paths[0]), c, paths[1..])
  }

  /** A tool has edited `p`. */
  function CaptureOne(m: Manifest, c: Checkout, p: Path): Manifest {
    m.(touched := m.touched + {p},
       tracked := if InHead(c, p) then m.tracked + {p} else m.tracked,
       files := if p !in m.files && p !in c.tree && !InHead(c, p) then m.files[p := Take(c, p)] else m.files,
       after := m.after[p := Take(c, p)])
  }

  function CaptureAll(m: Manifest, c: Checkout, paths: seq<Path>): Manifest
    decreases |paths|
  {
    if paths == [] || |m.touched| >= MAX_SNAPSHOT_FILES then m
    else CaptureAll(CaptureOne(m, c, paths[0]), c, paths[1..])
  }

  /** The manifest of a session that has done nothing yet: at most five hundred of the
      dirty files, as they are. */
  ghost predicate IsBaseline(m: Manifest, c: Checkout, cwd: Path) {
    && m.cwd == cwd && m.files.Keys <= Dirty(c)
    && |m.files| == (if |Dirty(c)| <= MAX_SNAPSHOT_FILES then |Dirty(c)| else MAX_SNAPSHOT_FILES)
    && (forall p :: p in m.files ==> m.files[p] == Take(c, p))
    && m.tracked == (set p | p in m.files && InHead(c, p))
    && m.touched == {} && m.prepared == {} && m.after == map[] && m.diverged == {}
  }

  // ------------------------------------------------------------------ review

  /** The session has a change to review at `p`: it made one between two boundaries,
      and it is neither committed nor already reverted. */
  predicate Listed(m: Manifest, c: Checkout, p: Path) {
    && p in m.touched && p in m.prepared
    && !(p in m.files && p in m.after && View(m.files[p]) == View(m.after[p]))
    && FileDiffers(m, c, p)
  }

  predicate FileDiffers(m: Manifest, c: Checkout, p: Path) {
    if p !in Dirty(c) && (p in m.tracked || InHead(c, p)) then false
    else if p in m.files then
      !m.files[p].Skipped? && WorktreeView(c, p) != View(m.files[p])
    else p in Dirty(c) || (p in c.tree && !InHead(c, p))
  }

  predicate Undoable(m: Manifest, c: Checkout, foreign: set<Path>, p: Path) {
    p !in m.diverged && p !in foreign && AfterMatches(m, c, p)
  }

  function Claims(m: Manifest): set<Path> { m.touched * m.prepared }

  /** Paths another session claims in the same checkout. */
  ghost function Foreign(s: Store, cwd: Path, session: string): set<Path> {
    set k, p | k in s.manifests && k != session && s.manifests[k].cwd == cwd
               && cwd in s.checkouts && p in Claims(s.manifests[k]) :: p
  }

  function Review(m: Manifest, c: Checkout, foreign: set<Path>): set<Entry> {
    set p | p in m.touched && Listed(m, c, p) ::
      Entry(p, p !in m.diverged, Undoable(m, c, foreign, p))
  }

  function ListedPaths(m: Manifest, c: Checkout): set<Path> {
    set p | p in m.touched && Listed(m, c, p)
  }

  /** The session's manifest, if it belongs to this checkout. */
  predicate Matches(s: Store, session: string, cwd: Path) {
    session in s.manifests && s.manifests[session].cwd == cwd && cwd in s.checkouts
  }

  /** What `status` answers. */
  ghost function ReviewIn(s: Store, session: string, cwd: Path): set<Entry> {
    if Matches(s, session, cwd) then Review(s.manifests[session], s.checkouts[cwd], Foreign(s, cwd, session)) else {}
  }

  // -------------------------------------------------------------------- undo

  /** What undo leaves at `p`. Permissions of a file that is still there stay. */
  function Reverted(m: Manifest, c: Checkout, p: Path): Option<File> {
    if p in m.files then
      match m.files[p]
      case Skipped => if p in c.tree then Some(c.tree[p]) else None
      case Missing => None
      case Contents(bytes, _) => Some(File(bytes, if p in c.tree then c.tree[p].mode else NEW_FILE_MODE))
    else if InHead(c, p) then
      var blob := c.head.value.tree[p];
      Some(File(blob.bytes, if blob.executable then 0x1ED else 0x1A4))
    else None
  }

  function Undone(m: Manifest, c: Checkout, paths: set<Path>): Checkout {
    c.(tree := (map p | p in c.tree && p !in paths :: c.tree[p])
             + (map p | p in paths && Reverted(m, c, p).Some? :: Reverted(m, c, p).value))
  }

  // ---------------------------------------------------------------- transfer

  /** A worker's path holds what its snapshots say. */
  predicate PathVerified(m: Manifest, c: Checkout, p: Path)
    requires p in m.files
  {
    && !m.files[p].Skipped?
    && if p in m.touched then
         p in m.prepared && p in m.after && !m.after[p].Skipped? && Seen(c, p) == Stored(m.after[p])
       else Seen(c, p) == Stored(m.files[p])
  }

  ghost predicate Verified(m: Manifest, c: Checkout) {
    && m.diverged == {}
    && Dirty(c) <= m.files.Keys
    && forall p :: p in m.files ==> PathVerified(m, c, p)
  }

  predicate IsChanged(m: Manifest, p: Path) {
    p in m.files && p in m.touched && p in m.after && Stored(m.files[p]) != Stored(m.after[p])
  }

  function Changed(m: Manifest): set<Path> { set p | p in m.files && IsChanged(m, p) }

  predicate LeadFits(m: Manifest, lead: Checkout, p: Path)
    requires IsChanged(m, p)
  {
    Seen(lead, p) == Stored(m.files[p]) || Seen(lead, p) == Stored(m.after[p])
  }

  ghost predicate CanApply(s: Store, session: string, from: Path, to: Path) {
    && Matches(s, session, from) && to in s.checkouts && from != to
    && s.checkouts[from].head.Some? && s.checkouts[from].head == s.checkouts[to].head
    && Verified(s.manifests[session], s.checkouts[from])
    && forall p :: p in Changed(s.manifests[session]) ==>
         LeadFits(s.manifests[session], s.checkouts[to], p)
  }

  function Written(s: Snapshot): Option<File> {
    if s.Contents? then Some(File(s.bytes, s.mode)) else None
  }

  /** The lead after the worker's result reached these paths. */
  function Applied(m: Manifest, lead: Checkout, paths: set<Path>): Checkout
    requires paths <= m.after.Keys
  {
    lead.(tree := (map p | p in lead.tree && p !in paths :: lead.tree[p])
                + (map p | p in paths && Written(m.after[p]).Some? :: Written(m.after[p]).value))
  }

  function Elements(s: seq<Path>): set<Path> { set p | p in s }

  ghost predicate Distinct(s: seq<Path>) { forall i, j :: 0 <= i < j < |s| ==> s[i] != s[j] }

  lemma {:induction false} DistinctSize(s: seq<Path>)
    requires Distinct(s)
    ensures |Elements(s)| == |s|
    decreases |s|
  {
    if s != [] {
      var n := |s| - 1;
      DistinctSize(s[..n]);
      assert Elements(s) == Elements(s[..n]) + {s[n]};
    }
  }

  /** Lists a set in some order. */
  method ListPaths(all: set<Path>) returns (listing: seq<Path>)
    ensures Distinct(listing) && Elements(listing) == all
  {
    listing := [];
    var rest := all;
    while rest != {}
      invariant rest <= all && Distinct(listing) && Elements(listing) == all - rest
      decreases |rest|
    {
      var p :| p in rest;
      ghost var was := listing;
      assert p !in Elements(listing);
      listing := listing + [p];
      assert Elements(listing) == Elements(was) + {p};
      rest := rest - {p};
    }
  }

  method DiffFromManifest(m: Manifest, c: Checkout, foreign: set<Path>) returns (entries: set<Entry>)
    ensures entries == Review(m, c, foreign)
  {
    entries := {};
    var rest := m.touched;
    while rest != {}
      invariant rest <= m.touched
      invariant entries == set p | p in m.touched && p !in rest && Listed(m, c, p) ::
                             Entry(p, p !in m.diverged, Undoable(m, c, foreign, p))
      decreases |rest|
    {
      var p :| p in rest;
      rest := rest - {p};
      if p !in m.prepared {
        continue;
      }
      if p in m.files && p in m.after && View(m.files[p]) == View(m.after[p]) {
        continue;
      }
      if !FileDiffers(m, c, p) {
        continue;
      }
      var exact := p !in m.diverged;
      var undoable := exact && p !in foreign && AfterMatches(m, c, p);
      entries := entries + {Entry(p, exact, undoable)};
    }
  }

  function PathsOf(entries: set<Entry>): set<Path> { set e | e in entries :: e.path }

  lemma ReviewLists(m: Manifest, c: Checkout, foreign: set<Path>)
    ensures PathsOf(Review(m, c, foreign)) == ListedPaths(m, c)
    ensures forall e :: e in Review(m, c, foreign) ==>
              Listed(m, c, e.path) && e == Entry(e.path, e.path !in m.diverged, Undoable(m, c, foreign, e.path))
  {
    hide Listed;
    forall p | p in ListedPaths(m, c) ensures p in PathsOf(Review(m, c, foreign)) {
      assert Entry(p, p !in m.diverged, Undoable(m, c, foreign, p)) in Review(m, c, foreign);
    }
  }

  /** One file of a tree replaced, or removed. */
  function With(t: map<Path, File>, p: Path, f: Option<File>): map<Path, File> {
    if f.Some? then t[p := f.value] else t - {p}
  }

  lemma UndoneAt(m: Manifest, c: Checkout, paths: set<Path>, p: Path)
    ensures p in Undone(m, c, paths).tree <==> if p in paths then Reverted(m, c, p).Some? else p in c.tree
    ensures p in Undone(m, c, paths).tree ==>
              Undone(m, c, paths).tree[p] == if p in paths then Reverted(m, c, p).value else c.tree[p]
  {
    hide Reverted;
  }

  /** Undoing one more path does not depend on the paths undone before. */
  lemma UndoOneMore(m: Manifest, c: Checkout, paths: set<Path>, p: Path)
    requires p !in paths
    ensures Undone(m, c, paths + {p}).tree == With(Undone(m, c, paths).tree, p, Reverted(m, c, p))
    ensures Reverted(m, Undone(m, c, paths), p) == Reverted(m, c, p)
  {
    var step, next := Undone(m, c, paths), Undone(m, c, paths + {p});
    UndoneAt(m, c, paths, p);
    assert step.head == c.head;
    hide Undone, Reverted;
    forall q ensures q in next.tree <==> q in With(step.tree, p, Reverted(m, c, p)) {
      UndoneAt(m, c, paths, q);
      UndoneAt(m, c, paths + {p}, q);
    }
    forall q | q in next.tree ensures next.tree[q] == With(step.tree, p, Reverted(m, c, p))[q] {
      UndoneAt(m, c, paths, q);
      UndoneAt(m, c, paths + {p}, q);
    }
    SameRevert(m, c, step, p);
  }

  lemma UndoneNothing(m: Manifest, c: Checkout)
    ensures Undone(m, c, {}) == c
  {
    assert Undone(m, c, {}).tree == c.tree;
  }

  lemma SameCheckoutButTree(m: Manifest, c: Checkout, x: set<Path>, y: set<Path>)
    ensures Undone(m, c, y) == Undone(m, c, x).(tree := Undone(m, c, y).tree)
  {
  }

  /** What undo leaves at a path depends on that path and the commit only. */
  lemma SameRevert(m: Manifest, c: Checkout, step: Checkout, p: Path)
    requires step.head == c.head && (p in step.tree <==> p in c.tree)
    requires p in c.tree ==> step.tree[p] == c.tree[p]
    ensures Reverted(m, step, p) == Reverted(m, c, p)
  {
  }

  function AlreadyAmong(m: Manifest, lead: Checkout, paths: seq<Path>): set<Path> {
    set p | p in paths && p in m.after && Seen(lead, p) == Stored(m.after[p])
  }

  function AlreadyThere(m: Manifest, lead: Checkout): set<Path> {
    set p | p in Changed(m) && Seen(lead, p) == Stored(m.after[p])
  }

  predicate AreChanged(m: Manifest, changed: seq<Path>) {
    forall i :: 0 <= i < |changed| ==> IsChanged(m, changed[i])
  }

  lemma ElementsAreChanged(m: Manifest, changed: seq<Path>)
    requires Elements(changed) == Changed(m)
    ensures AreChanged(m, changed)
  {
    forall i | 0 <= i < |changed| ensures IsChanged(m, changed[i]) {
      assert changed[i] in Elements(changed);
    }
  }

  predicate FitSoFar(m: Manifest, lead: Checkout, changed: seq<Path>, i: nat)
    requires AreChanged(m, changed) && i <= |changed|
  {
    forall j :: 0 <= j < i ==> LeadFits(m, lead, changed[j])
  }

  lemma AllFit(m: Manifest, lead: Checkout, changed: seq<Path>)
    requires Elements(changed) == Changed(m) && AreChanged(m, changed) && FitSoFar(m, lead, changed, |changed|)
    ensures forall p :: p in Changed(m) ==> LeadFits(m, lead, p)
    ensures AlreadyAmong(m, lead, changed) == AlreadyThere(m, lead)
  {
    hide LeadFits;
    forall p | p in Changed(m) ensures LeadFits(m, lead, p) && p in changed {
      assert p in Elements(changed);
    }
    forall p | p in changed ensures p in Changed(m) { assert p in Elements(changed); }
  }

  lemma AlreadyStep(m: Manifest, lead: Checkout, changed: seq<Path>, i: nat)
    requires Distinct(changed) && AreChanged(m, changed) && i < |changed|
    ensures AlreadyAmong(m, lead, changed[..i + 1]) == AlreadyAmong(m, lead, changed[..i])
              + if Seen(lead, changed[i]) == Stored(m.after[changed[i]]) then {changed[i]} else {}
    ensures changed[i] !in AlreadyAmong(m, lead, changed[..i])
  {
    assert changed[..i + 1] == changed[..i] + [changed[i]];
  }

  /** The files a transfer reaches when it stops after `writes` of them. */
  function WrittenSet(changed: seq<Path>, writes: nat): set<Path> {
    Elements(if writes < |changed| then changed[..writes] else changed)
  }

  lemma AppliedNothing(m: Manifest, lead: Checkout)
    ensures Applied(m, lead, {}) == lead
  {
    assert Applied(m, lead, {}).tree == lead.tree;
  }

  lemma AppliedAt(m: Manifest, lead: Checkout, paths: set<Path>, p: Path)
    requires paths <= m.after.Keys
    ensures var t := Applied(m, lead, paths).tree;
            && (p in t <==> if p in paths then Written(m.after[p]).Some? else p in lead.tree)
            && (p in t ==> t[p] == if p in paths then Written(m.after[p]).value else lead.tree[p])
  {
  }

  lemma ApplyToOneMore(m: Manifest, lead: Checkout, paths: set<Path>, p: Path)
    requires paths <= m.after.Keys && p in m.after
    ensures Applied(m, lead, paths + {p}).tree == With(Applied(m, lead, paths).tree, p, Written(m.after[p]))
  {
    var step, next := Applied(m, lead, paths).tree, Applied(m, lead, paths + {p}).tree;
    hide Applied, Written;
    forall q ensures q in next <==> q in With(step, p, Written(m.after[p])) {
      AppliedAt(m, lead, paths, q);
      AppliedAt(m, lead, paths + {p}, q);
    }
    forall q | q in next ensures next[q] == With(step, p, Written(m.after[p]))[q] {
      AppliedAt(m, lead, paths, q);
      AppliedAt(m, lead, paths + {p}, q);
    }
  }

  /** A file that looks like the snapshot is what a transfer would write. */
  lemma LooksWritten(c: Checkout, p: Path, s: Snapshot)
    requires !s.Skipped? && Seen(c, p) == Stored(s)
    ensures With(c.tree, p, Written(s)) == c.tree
  {
  }

  /** One write of a transfer; nothing is written where the result already is. */
  lemma ApplyOneMore(m: Manifest, lead: Checkout, changed: seq<Path>, i: nat, worker: Checkout)
    requires Distinct(changed) && AreChanged(m, changed) && i < |changed|
    requires Elements(changed) == Changed(m) && Verified(m, worker)
    ensures Elements(changed[..i]) <= m.after.Keys && Elements(changed[..i + 1]) <= m.after.Keys
    ensures var p, c := changed[i], Applied(m, lead, Elements(changed[..i]));
            var next := Applied(m, lead, Elements(changed[..i + 1]));
            && !m.after[p].Skipped?
            && next == c.(tree := With(c.tree, p, Written(m.after[p])))
            && (Seen(c, p) == Stored(m.after[p]) ==> next == c)
  {
    var p, before := changed[i], Elements(changed[..i]);
    assert changed[..i + 1] == changed[..i] + [p];
    assert Elements(changed[..i + 1]) == before + {p};
    forall x | x in before + {p} ensures x in m.after {
      var j :| 0 <= j < |changed| && changed[j] == x;
    }
    assert PathVerified(m, worker, p);
    var c := Applied(m, lead, before);
    ApplyToOneMore(m, lead, before, p);
    if Seen(c, p) == Stored(m.after[p]) { LooksWritten(c, p, m.after[p]); }
  }

  lemma SeenAfterWrite(m: Manifest, lead: Checkout, paths: set<Path>, p: Path)
    requires paths <= m.after.Keys
    ensures p !in paths ==> Seen(Applied(m, lead, paths), p) == Seen(lead, p)
    ensures p in paths && !m.after[p].Skipped?
            && (m.after[p].Contents? ==> |m.after[p].bytes| <= MAX_TEXT_FILE_BYTES) ==>
              Seen(Applied(m, lead, paths), p) == Stored(m.after[p])
  {
  }

  // ------------------------------------------------------------------- loops

  ghost predicate SnapshotsOf(files: map<Path, Snapshot>, tracked: set<Path>, c: Checkout, paths: seq<Path>) {
    files.Keys == Elements(paths) && |files| == |paths| && AreTaken(files, c) && tracked == InHeadOf(files, c)
  }

  ghost predicate AreTaken(files: map<Path, Snapshot>, c: Checkout) {
    forall p :: p in files ==> files[p] == Take(c, p)
  }

  function InHeadOf(files: map<Path, Snapshot>, c: Checkout): set<Path> { set p | p in files && InHead(c, p) }

  lemma OneMoreInHead(files: map<Path, Snapshot>, c: Checkout, p: Path, s: Snapshot)
    ensures InHeadOf(files[p := s], c) == InHeadOf(files, c) + if InHead(c, p) then {p} else {}
  {
    hide InHead;
  }

  lemma NextElement(listing: seq<Path>, i: nat)
    requires i < |listing| && Distinct(listing)
    ensures Elements(listing[..i + 1]) == Elements(listing[..i]) + {listing[i]}
    ensures listing[i] !in Elements(listing[..i])
  {
    assert listing[..i + 1] == listing[..i] + [listing[i]];
  }

  lemma SnapshotStep(files: map<Path, Snapshot>, tracked: set<Path>, c: Checkout, listing: seq<Path>, i: nat)
    requires i < |listing| && Distinct(listing) && SnapshotsOf(files, tracked, c, listing[..i])
    ensures var p := listing[i];
            SnapshotsOf(files[p := Take(c, p)], if InHead(c, p) then tracked + {p} else tracked, c, listing[..i + 1])
  {
    var p, snapshot := listing[i], Take(c, listing[i]);
    OneMoreInHead(files, c, p, snapshot);
    NextElement(listing, i);
    OneMoreTaken(files, c, p);
    hide Take, InHead, InHeadOf, Elements, Distinct, AreTaken;
    assert files[p := snapshot].Keys == files.Keys + {p};
  }

  lemma OneMoreTaken(files: map<Path, Snapshot>, c: Checkout, p: Path)
    requires AreTaken(files, c)
    ensures AreTaken(files[p := Take(c, p)], c)
  {
    hide Take;
  }

  /** The snapshots of `ensure`. */
  method Baseline(c: Checkout, cwd: Path, listing: seq<Path>) returns (m: Manifest)
    requires Distinct(listing) && Elements(listing) == Dirty(c)
    ensures IsBaseline(m, c, cwd)
  {
    var files: map<Path, Snapshot> := map[];
    var tracked: set<Path> := {};
    var i := 0;
    assert SnapshotsOf(files, tracked, c, listing[..0]);
    hide SnapshotsOf, IsBaseline, Dirty, Take, InHead, Elements, Distinct;
    while i < |listing| && SizeOf(files, tracked, c, listing[..i]) < MAX_SNAPSHOT_FILES
      invariant i <= |listing| && i <= MAX_SNAPSHOT_FILES && SnapshotsOf(files, tracked, c, listing[..i])
    {
      SnapshotStep(files, tracked, c, listing, i);
      if InHead(c, listing[i]) {
        tracked := tracked + {listing[i]};
      }
      files := files[listing[i] := Take(c, listing[i])];
      i := i + 1;
    }
    m := Manifest(cwd, files, {}, tracked, {}, map[], {});
    BaselineIsTaken(m, c, cwd, listing, i);
  }

  /** The number of snapshots is the number of paths they were taken of. */
  function SizeOf(files: map<Path, Snapshot>, ghost tracked: set<Path>, ghost c: Checkout, ghost paths: seq<Path>): (n: nat)
    requires SnapshotsOf(files, tracked, c, paths)
    ensures n == |paths|
  {
    |files|
  }

  lemma BaselineIsTaken(m: Manifest, c: Checkout, cwd: Path, listing: seq<Path>, i: nat)
    requires Distinct(listing) && Elements(listing) == Dirty(c) && i <= |listing|
    requires SnapshotsOf(m.files, m.tracked, c, listing[..i])
    requires i == |listing| <= MAX_SNAPSHOT_FILES || i == MAX_SNAPSHOT_FILES
    requires m == Manifest(cwd, m.files, {}, m.tracked, {}, map[], {})
    ensures IsBaseline(m, c, cwd)
  {
    hide Take, InHead, IsDirty;
    DistinctSize(listing);
    forall p | p in m.files ensures p in Dirty(c) {
      assert p in Elements(listing[..i]) && p in Elements(listing);
    }
  }

  method PreparePaths(m: Manifest, c: Checkout, paths: seq<Path>) returns (manifest: Manifest)
    ensures manifest == PrepareAll(m, c, paths)
  {
    hide PrepareAll, Take, View;
    manifest := m;
    assert paths[0..] == paths;
    for i := 0 to |paths|
      invariant PrepareAll(m, c, paths) == PrepareAll(manifest, c, paths[i..])
    {
      var p := paths[i];
      PrepareStep(manifest, c, paths, i);
      if p in manifest.touched && p in manifest.prepared {
        if !AfterMatches(manifest, c, p) {
          manifest := manifest.(diverged := manifest.diverged + {p});
        }
      } else if p !in manifest.prepared {
        if p in manifest.touched {
          manifest := Release(manifest, p);
        }
        manifest := manifest.(files := manifest.files[p := Take(c, p)], prepared := manifest.prepared + {p});
        if InHead(c, p) {
          manifest := manifest.(tracked := manifest.tracked + {p});
        }
      }
    }
    PrepareNone(manifest, c, paths[|paths|..]);
  }

  lemma PrepareNone(m: Manifest, c: Checkout, paths: seq<Path>)
    requires paths == []
    ensures PrepareAll(m, c, paths) == m && CaptureAll(m, c, paths) == m
  {
  }

  lemma PrepareStep(m: Manifest, c: Checkout, paths: seq<Path>, i: nat)
    requires i < |paths|
    ensures PrepareAll(m, c, paths[i..]) == PrepareAll(PrepareOne(m, c, paths[i]), c, paths[i + 1..])
  {
    assert paths[i..][1..] == paths[i + 1..];
  }

  method CapturePaths(m: Manifest, c: Checkout, paths: seq<Path>) returns (manifest: Manifest)
    ensures manifest == CaptureAll(m, c, paths)
  {
    hide CaptureAll, Take;
    manifest := m;
    var i := 0;
    assert paths[0..] == paths;
    while i < |paths| && |manifest.touched| < MAX_SNAPSHOT_FILES
      invariant i <= |paths|
      invariant CaptureAll(m, c, paths) == CaptureAll(manifest, c, paths[i..])
    {
      var p := paths[i];
      CaptureStep(manifest, c, paths, i);
      manifest := manifest.(touched := manifest.touched + {p});
      if InHead(c, p) {
        manifest := manifest.(tracked := manifest.tracked + {p});
      }
      if p !in manifest.files && p !in c.tree && !InHead(c, p) {
        manifest := manifest.(files := manifest.files[p := Take(c, p)]);
      }
      manifest := manifest.(after := manifest.after[p := Take(c, p)]);
      i := i + 1;
    }
    CaptureStops(manifest, c, paths[i..]);
  }

  lemma CaptureStops(m: Manifest, c: Checkout, paths: seq<Path>)
    requires paths == [] || |m.touched| >= MAX_SNAPSHOT_FILES
    ensures CaptureAll(m, c, paths) == m
  {
  }

  lemma CaptureStep(m: Manifest, c: Checkout, paths: seq<Path>, i: nat)
    requires i < |paths| && |m.touched| < MAX_SNAPSHOT_FILES
    ensures CaptureAll(m, c, paths[i..]) == CaptureAll(CaptureOne(m, c, paths[i]), c, paths[i + 1..])
  {
    assert paths[i..][1..] == paths[i + 1..];
  }

  lemma PreflightStep(m: Manifest, lead: Checkout, changed: seq<Path>, i: nat)
    requires Distinct(changed) && AreChanged(m, changed) && i < |changed| && FitSoFar(m, lead, changed, i)
    ensures LeadFits(m, lead, changed[i]) ==> FitSoFar(m, lead, changed, i + 1)
    ensures |AlreadyAmong(m, lead, changed[..i + 1])| == |AlreadyAmong(m, lead, changed[..i])|
              + if Seen(lead, changed[i]) == Stored(m.after[changed[i]]) then 1 else 0
    ensures changed[i] in Changed(m)
  {
    hide Seen, Stored;
    AlreadyStep(m, lead, changed, i);
  }

  lemma NothingChecked(m: Manifest, lead: Checkout, changed: seq<Path>)
    requires AreChanged(m, changed)
    ensures FitSoFar(m, lead, changed, 0) && AlreadyAmong(m, lead, changed[..0]) == {}
  {
  }

  /** Checks that every path of the lead is as before or as after the worker. */
  method Preflight(m: Manifest, lead: Checkout, changed: seq<Path>) returns (fits: bool, already: nat)
    requires Distinct(changed) && AreChanged(m, changed) && Elements(changed) == Changed(m)
    ensures fits <==> forall p :: p in Changed(m) ==> LeadFits(m, lead, p)
    ensures fits ==> already == |AlreadyThere(m, lead)|
  {
    hide Seen, Stored, FitSoFar, AlreadyAmong, AlreadyThere, Distinct, Elements, Changed;
    var i := 0;
    already := 0;
    NothingChecked(m, lead, changed);
    while i < |changed|
      invariant i <= |changed| && FitSoFar(m, lead, changed, i)
      invariant already == |AlreadyAmong(m, lead, changed[..i])|
    {
      var p := changed[i];
      PreflightStep(m, lead, changed, i);
      if Seen(lead, p) == Stored(m.after[p]) {
        already := already + 1;
      } else if Seen(lead, p) != Stored(m.files[p]) {
        assert !LeadFits(m, lead, p);
        return false, already;
      }
      i := i + 1;
    }
    assert changed[..|changed|] == changed;
    AllFit(m, lead, changed);
    fits := true;
  }

  // ------------------------------------------------------------------- store

  class CheckpointStore {
    var manifests: map<string, Manifest>
    var checkouts: map<Path, Checkout>

    ghost function State(): Store
      reads this
    {
      Store(manifests, checkouts)
    }

    constructor (checkouts: map<Path, Checkout>)
      ensures State() == Store(map[], checkouts)
    {
      this.manifests, this.checkouts := map[], checkouts;
    }

    method SameCwd(saved: Path, cwd: Path) returns (same: bool)
      ensures same == (saved == cwd && cwd in checkouts)
    {
      same := saved in checkouts && cwd in checkouts && saved == cwd;
    }

    method LoadMatching(session: string, cwd: Path) returns (r: Option<Manifest>)
      ensures r == if Matches(State(), session, cwd) then Some(manifests[session]) else None
    {
      if session !in manifests {
        return None;
      }
      var same := SameCwd(manifests[session].cwd, cwd);
      r := if same then Some(manifests[session]) else None;
    }

    /** The dirty files of a checkout, in some order. */
    method GitDiffFiles(root: Path) returns (listing: seq<Path>)
      requires root in checkouts
      ensures Distinct(listing) && Elements(listing) == Dirty(checkouts[root])
    {
      listing := ListPaths(Dirty(checkouts[root]));
    }

    method Ensure(session: string, cwd: Path) returns (r: Result<(), Failure>)
      modifies this`manifests
      ensures r.Ok? <==> cwd in checkouts
      ensures r.Err? || Matches(old(State()), session, cwd) ==> manifests == old(manifests)
      ensures r.Ok? && !Matches(old(State()), session, cwd) ==>
                && session in manifests && IsBaseline(manifests[session], checkouts[cwd], cwd)
                && manifests == old(manifests)[session := manifests[session]]
    {
      if cwd !in checkouts {
        return Err(NotADirectory);
      }
      if session in manifests {
        var same := SameCwd(manifests[session].cwd, cwd);
        if same {
          return Ok(());
        }
      }
      var listing := GitDiffFiles(cwd);
      var manifest := Baseline(checkouts[cwd], cwd, listing);
      manifests := manifests[session := manifest];
      r := Ok(());
    }

    method Prepare(session: string, cwd: Path, paths: seq<Path>) returns (r: Result<(), Failure>)
      modifies this`manifests
      ensures r.Ok? <==> paths == [] || cwd in checkouts
      ensures manifests == if Matches(old(State()), session, cwd)
                           then old(manifests)[session := PrepareAll(old(manifests)[session], checkouts[cwd], paths)]
                           else old(manifests)
    {
      if paths == [] {
        assert Matches(State(), session, cwd) ==>
          manifests == manifests[session := PrepareAll(manifests[session], checkouts[cwd], paths)];
        return Ok(());
      }
      if cwd !in checkouts {
        return Err(NotADirectory);
      }
      var loaded := LoadMatching(session, cwd);
      if loaded.None? {
        return Ok(());
      }
      var manifest := PreparePaths(loaded.value, checkouts[cwd], paths);
      manifests := manifests[session := manifest];
      r := Ok(());
    }

    method Capture(session: string, cwd: Path, paths: seq<Path>) returns (r: Result<(), Failure>)
      modifies this`manifests
      ensures r.Ok? <==> paths == [] || cwd in checkouts
      ensures manifests == if Matches(old(State()), session, cwd)
                           then old(manifests)[session := CaptureAll(old(manifests)[session], checkouts[cwd], paths)]
                           else old(manifests)
    {
      if paths == [] {
        assert Matches(State(), session, cwd) ==>
          manifests == manifests[session := CaptureAll(manifests[session], checkouts[cwd], paths)];
        return Ok(());
      }
      if cwd !in checkouts {
        return Err(NotADirectory);
      }
      var loaded := LoadMatching(session, cwd);
      if loaded.None? {
        return Ok(());
      }
      var manifest := CapturePaths(loaded.value, checkouts[cwd], paths);
      manifests := manifests[session := manifest];
      r := Ok(());
    }

    method ForeignTouchedPaths(cwd: Path, session: string) returns (paths: set<Path>)
      ensures paths == Foreign(State(), cwd, session)
    {
      paths := {};
      var rest := manifests.Keys;
      while rest != {}
        invariant rest <= manifests.Keys
        invariant paths == set k, p | k in manifests && k !in rest && k != session
                             && manifests[k].cwd == cwd && cwd in checkouts && p in Claims(manifests[k]) :: p
        decreases |rest|
      {
        var k :| k in rest;
        rest := rest - {k};
        if k == session {
          continue;
        }
        var same := SameCwd(manifests[k].cwd, cwd);
        if same {
          paths := paths + Claims(manifests[k]);
        }
      }
    }

    method Status(session: string, cwd: Path) returns (entries: set<Entry>)
      ensures entries == ReviewIn(State(), session, cwd)
    {
      var loaded := LoadMatching(session, cwd);
      if loaded.None? {
        return {};
      }
      var foreign := ForeignTouchedPaths(cwd, session);
      entries := DiffFromManifest(loaded.value, checkouts[cwd], foreign);
    }

    method RestoreOne(m: Manifest, cwd: Path, p: Path)
      requires cwd in checkouts
      modifies this`checkouts
      ensures var c := old(checkouts)[cwd];
              checkouts == old(checkouts)[cwd := c.(tree := With(c.tree, p, Reverted(m, c, p)))]
    {
      var c := checkouts[cwd];
      if p in m.files {
        match m.files[p]
        case Skipped => assert With(c.tree, p, Reverted(m, c, p)) == c.tree;
        case Missing => c := c.(tree := c.tree - {p});
        case Contents(bytes, _) =>
          var mode := if p in c.tree then c.tree[p].mode else NEW_FILE_MODE;
          c := c.(tree := c.tree[p := File(bytes, mode)]);
      } else if InHead(c, p) {
        var blob := c.head.value.tree[p];
        c := c.(tree := c.tree[p := File(blob.bytes, if blob.executable then 0x1ED else 0x1A4)]);
      } else {
        c := c.(tree := c.tree - {p});
      }
      checkouts := checkouts[cwd := c];
    }

    /** Undoes every listed path. */
    method RestoreAll(m: Manifest, cwd: Path, entries: set<Entry>)
      requires cwd in checkouts && forall x, y :: x in entries && y in entries && x.path == y.path ==> x == y
      modifies this`checkouts
      ensures checkouts == old(checkouts)[cwd := Undone(m, old(checkouts)[cwd], PathsOf(entries))]
    {
      hide Undone, Reverted;
      ghost var c := checkouts[cwd];
      var todo := entries;
      UndoneNothing(m, c);
      assert PathsOf({}) == {} && entries - todo == {} && checkouts == checkouts[cwd := c];
      while todo != {}
        invariant todo <= entries && cwd in checkouts
        invariant checkouts == old(checkouts)[cwd := Undone(m, c, PathsOf(entries - todo))]
        decreases |todo|
      {
        var file :| file in todo;
        UndoOneMore(m, c, PathsOf(entries - todo), file.path);
        assert PathsOf(entries - (todo - {file})) == PathsOf(entries - todo) + {file.path};
        SameCheckoutButTree(m, c, PathsOf(entries - todo), PathsOf(entries - todo) + {file.path});
        RestoreOne(m, cwd, file.path);
        todo := todo - {file};
      }
      assert entries - todo == entries;
    }

    method Undo(session: string, cwd: Path, relative: Option<Path>) returns (r: Result<set<Entry>, Failure>)
      modifies this
      ensures !Matches(old(State()), session, cwd) ==> r == Ok({}) && State() == old(State())
      ensures r.Err? ==> State() == old(State())
      ensures r.Ok? ==> r.value == ReviewIn(State(), session, cwd)
      ensures Matches(old(State()), session, cwd) ==>
                var m, c := old(manifests)[session], old(checkouts)[cwd];
                var foreign := Foreign(old(State()), cwd, session);
                match relative
                case None =>
                  && (r.Ok? <==> forall p :: p in ListedPaths(m, c) ==> Undoable(m, c, foreign, p))
                  && (r.Ok? ==> State() == Store(old(manifests) - {session},
                                                 old(checkouts)[cwd := Undone(m, c, ListedPaths(m, c))]))
                case Some(p) =>
                  && (r.Ok? <==> (Listed(m, c, p) ==> Undoable(m, c, foreign, p)))
                  && (r.Ok? ==> State() == if Listed(m, c, p)
                                           then Store(old(manifests)[session := Release(m, p)],
                                                      old(checkouts)[cwd := Undone(m, c, {p})])
                                           else old(State()))
    {
      var loaded := LoadMatching(session, cwd);
      if loaded.None? {
        return Ok({});
      }
      var manifest := loaded.value;
      var foreign := ForeignTouchedPaths(cwd, session);
      ghost var c := checkouts[cwd];
      var changed := DiffFromManifest(manifest, checkouts[cwd], foreign);
      ReviewLists(manifest, c, foreign);
      if relative.Some? {
        var p := relative.value;
        assert p in PathsOf(changed) <==> Listed(manifest, c, p);
        if !exists e :: e in changed && e.path == p {
          var entries := Status(session, cwd);
          return Ok(entries);
        }
        var file :| file in changed && file.path == p;
        if !file.undoable {
          return Err(ChangedOutside);
        }
        UndoneNothing(manifest, c);
        UndoOneMore(manifest, c, {}, p);
        assert {} + {p} == {p};
        RestoreOne(manifest, cwd, p);
        manifests := manifests[session := Release(manifest, p)];
        var entries := Status(session, cwd);
        return Ok(entries);
      }
      if exists e :: e in changed && !e.undoable {
        return Err(ChangedOutside);
      }
      RestoreAll(manifest, cwd, changed);
      manifests := manifests - {session};
      r := Ok({});
    }

    method Keep(session: string, cwd: Path, relative: Option<Path>) returns (entries: set<Entry>)
      modifies this`manifests
      ensures manifests == if !Matches(old(State()), session, cwd) then old(manifests)
                           else match relative
                                case None => old(manifests) - {session}
                                case Some(p) => old(manifests)[session := Release(old(manifests)[session], p)]
      ensures entries == ReviewIn(State(), session, cwd)
    {
      var loaded := LoadMatching(session, cwd);
      if loaded.None? {
        return {};
      }
      if relative.None? {
        manifests := manifests - {session};
        return {};
      }
      manifests := manifests[session := Release(loaded.value, relative.value)];
      entries := Status(session, cwd);
    }

    method Forget(session: string)
      modifies this`manifests
      ensures manifests == old(manifests) - {session}
    {
      manifests := manifests - {session};
    }

    method VerifiedWorkerDelta(m: Manifest, root: Path) returns (r: Result<seq<Path>, Failure>)
      requires root in checkouts
      ensures r.Ok? <==> Verified(m, checkouts[root])
      ensures r.Ok? ==> Distinct(r.value) && Elements(r.value) == Changed(m)
    {
      var c := checkouts[root];
      if m.diverged != {} {
        return Err(DivergedFiles);
      }
      var currentDirty := GitDiffFiles(root);
      if exists p :: p in currentDirty && p !in m.files {
        ghost var p :| p in currentDirty && p !in m.files;
        assert p in Elements(currentDirty);
        return Err(NotCaptured);
      }
      assert Dirty(c) <= m.files.Keys by {
        forall p | p in Dirty(c) ensures p in m.files { assert p in Elements(currentDirty); }
      }
      var changed := [];
      var rest := m.files.Keys;
      while rest != {}
        invariant rest <= m.files.Keys
        invariant forall p :: p in m.files && p !in rest ==> PathVerified(m, c, p)
        invariant Distinct(changed) && Elements(changed) == set p | p in Changed(m) && p !in rest
        decreases |rest|
      {
        var p :| p in rest;
        assert p !in Elements(changed);
        if m.files[p].Skipped? {
          assert !PathVerified(m, c, p);
          return Err(CannotCheckpoint);
        }
        if p in m.touched {
          if p !in m.prepared || p !in m.after {
            assert !PathVerified(m, c, p);
            return Err(BoundaryMissing);
          }
          if m.after[p].Skipped? {
            assert !PathVerified(m, c, p);
            return Err(CannotCheckpoint);
          }
          if Seen(c, p) != Stored(m.after[p]) {
            assert !PathVerified(m, c, p);
            return Err(ChangedAfterCheckpoint);
          }
          if Stored(m.files[p]) != Stored(m.after[p]) {
            ghost var was := changed;
            changed := changed + [p];
            assert Elements(changed) == Elements(was) + {p};
          }
        } else if Seen(c, p) != Stored(m.files[p]) {
          assert !PathVerified(m, c, p);
          return Err(NotAttributed);
        }
        rest := rest - {p};
      }
      r := Ok(changed);
    }

    /** Every path is checked before the first is written. `writes` is how many files
        the process gets to before it stops. */
    method Apply(session: string, from: Path, to: Path, writes: nat) returns (r: Result<Transfer, Failure>)
      modifies this`checkouts
      ensures r.Ok? <==> CanApply(old(State()), session, from, to)
      ensures r.Err? ==> checkouts == old(checkouts)
      ensures r.Ok? ==>
                var m, lead := manifests[session], old(checkouts)[to];
                match r.value
                case Finished(files, already) =>
                  && Distinct(files) && Elements(files) == Changed(m) && already == |AlreadyThere(m, lead)|
                  && checkouts == old(checkouts)[to := Applied(m, lead, Changed(m))]
                case Interrupted =>
                  && writes < |Changed(m)|
                  && exists files :: Distinct(files) && Elements(files) == Changed(m)
                       && WrittenSet(files, writes) <= m.after.Keys
                       && checkouts == old(checkouts)[to := Applied(m, lead, WrittenSet(files, writes))]
    {
      var loaded := LoadMatching(session, from);
      if loaded.None? {
        return Err(NoCheckpoint);
      }
      if to !in checkouts {
        return Err(NotADirectory);
      }
      if from == to {
        return Err(SameCheckout);
      }
      if checkouts[from].head.None? || checkouts[to].head.None? {
        return Err(NotARepository);
      }
      if checkouts[from].head != checkouts[to].head {
        return Err(HeadMoved);
      }
      var m, lead := loaded.value, checkouts[to];
      var delta := VerifiedWorkerDelta(m, from);
      if delta.Err? {
        return Err(delta.error);
      }
      var changed := delta.value;
      DistinctSize(changed);
      ElementsAreChanged(m, changed);
      var fits, already := Preflight(m, lead, changed);
      if !fits {
        return Err(LeadChanged);
      }
      var finished := WriteChanges(m, to, changed, writes, checkouts[from]);
      r := Ok(if finished then Finished(changed, already) else Interrupted);
    }

    method WriteChanges(m: Manifest, to: Path, changed: seq<Path>, writes: nat, ghost worker: Checkout)
      returns (finished: bool)
      requires to in checkouts && Verified(m, worker)
      requires Distinct(changed) && AreChanged(m, changed) && Elements(changed) == Changed(m)
      modifies this`checkouts
      ensures finished == (writes >= |changed|)
      ensures WrittenSet(changed, writes) <= m.after.Keys
      ensures checkouts == old(checkouts)[to := Applied(m, old(checkouts)[to], WrittenSet(changed, writes))]
    {
      hide Applied, Seen, Stored, Verified, PathVerified;
      var i := 0;
      ghost var lead := checkouts[to];
      AppliedNothing(m, lead);
      assert changed[..0] == [] && Elements([]) == {} && checkouts == checkouts[to := lead];
      while i < |changed|
        invariant i <= |changed| && i <= writes && Elements(changed[..i]) <= m.after.Keys
        invariant checkouts == old(checkouts)[to := Applied(m, lead, Elements(changed[..i]))]
      {
        if i >= writes {
          break;
        }
        var p := changed[i];
        var c := checkouts[to];
        ApplyOneMore(m, lead, changed, i, worker);
        if Seen(c, p) != Stored(m.after[p]) {
          match m.after[p]
          case Contents(bytes, mode) => c := c.(tree := c.tree[p := File(bytes, mode)]);
          case Missing => c := c.(tree := c.tree - {p});
        }
        checkouts := checkouts[to := c];
        i := i + 1;
      }
      finished := i == |changed|;
      assert changed[..|changed|] == changed;
    }

    method CleanupSafe(session: string, cwd: Path) returns (safe: bool)
      ensures safe <==> && Matches(State(), session, cwd)
                        && Verified(manifests[session], checkouts[cwd])
                        && Changed(manifests[session]) == {}
    {
      var loaded := LoadMatching(session, cwd);
      if loaded.None? {
        return false;
      }
      var delta := VerifiedWorkerDelta(loaded.value, cwd);
      if delta.Ok? && delta.value != [] { assert delta.value[0] in Elements(delta.value); }
      safe := delta.Ok? && delta.value == [];
    }
  }
}
