/** Edit boundaries and undo in `src-tauri/src/checkpoint.rs`: what the snapshots of one
    path say about every edit between them, and what undo gives back. */
module CheckpointUndo {
  import opened Wrappers
  import opened Checkpoint

  // ------------------------------------------------------------ one path

  /** A manifest's record of one path. */
  datatype Slot = Slot(
    before: Option<Snapshot>, touched: bool, prepared: bool, after: Option<Snapshot>, diverged: bool)

  function SlotOf(m: Manifest, p: Path): Slot {
    Slot(if p in m.files then Some(m.files[p]) else None, p in m.touched, p in m.prepared,
         if p in m.after then Some(m.after[p]) else None, p in m.diverged)
  }

  const Unclaimed := Slot(None, false, false, None, false)

  function PrepareSlot(s: Slot, now: Snapshot): Slot {
    if s.touched && s.prepared then
      if s.after.Some? && View(now) == View(s.after.value) then s else s.(diverged := true)
    else if s.prepared then s
    else Slot(Some(now), false, true, if s.touched then None else s.after,
              if s.touched then false else s.diverged)
  }

  function CaptureSlot(s: Slot, now: Snapshot, inHead: bool): Slot {
    s.(touched := true, after := Some(now),
       before := if s.before.None? && now.Missing? && !inHead then Some(now) else s.before)
  }

  lemma PrepareOneSlot(m: Manifest, c: Checkout, p: Path, q: Path)
    ensures SlotOf(PrepareOne(m, c, p), q)
            == if q == p then PrepareSlot(SlotOf(m, p), Take(c, p)) else SlotOf(m, q)
  {
    hide Take, View;
  }

  /** Preparing a list of paths prepares each of them once, in any order. */
  lemma {:induction false} PrepareAllSlot(m: Manifest, c: Checkout, paths: seq<Path>, q: Path)
    ensures SlotOf(PrepareAll(m, c, paths), q)
            == if q in paths then PrepareSlot(SlotOf(m, q), Take(c, q)) else SlotOf(m, q)
    decreases |paths|
  {
    hide Take, View, PrepareOne, SlotOf;
    if paths != [] {
      assert q in paths <==> q == paths[0] || q in paths[1..];
      PrepareOneSlot(m, c, paths[0], q);
      PrepareAllSlot(PrepareOne(m, c, paths[0]), c, paths[1..], q);
    }
  }

  /** The paths a capture reaches before it meets the limit. */
  function Recorded(touched: set<Path>, paths: seq<Path>): seq<Path>
    decreases |paths|
  {
    if paths == [] || |touched| >= MAX_SNAPSHOT_FILES then []
    else [paths[0]] + Recorded(touched + {paths[0]}, paths[1..])
  }

  lemma CaptureOneSlot(m: Manifest, c: Checkout, p: Path, q: Path)
    ensures SlotOf(CaptureOne(m, c, p), q)
            == if q == p then CaptureSlot(SlotOf(m, p), Take(c, p), InHead(c, p)) else SlotOf(m, q)
  {
  }

  lemma {:induction false} CaptureAllSlot(m: Manifest, c: Checkout, paths: seq<Path>, q: Path)
    ensures SlotOf(CaptureAll(m, c, paths), q)
            == if q in Recorded(m.touched, paths) then CaptureSlot(SlotOf(m, q), Take(c, q), InHead(c, q))
               else SlotOf(m, q)
    decreases |paths|
  {
    hide Take, InHead, SlotOf;
    if paths != [] && |m.touched| < MAX_SNAPSHOT_FILES {
      CaptureOneSlot(m, c, paths[0], q);
      CaptureAllSlot(CaptureOne(m, c, paths[0]), c, paths[1..], q);
    }
  }

  lemma ReleaseSlot(m: Manifest, p: Path, q: Path)
    ensures SlotOf(Release(m, p), q) == if q == p then Unclaimed else SlotOf(m, q)
  {
  }

  // --------------------------------------------------------- well-formedness

  ghost predicate WellFormed(m: Manifest) {
    && m.prepared <= m.files.Keys && m.touched <= m.after.Keys
    && forall p :: p in m.files ==> IsTaken(m.files[p])
  }

  /** Snapshots hold no file over the limit. */
  predicate IsTaken(s: Snapshot) { s.Contents? ==> |s.bytes| <= MAX_TEXT_FILE_BYTES }

  lemma TakenIsTaken(c: Checkout, p: Path)
    ensures IsTaken(Take(c, p))
  {
  }

  lemma BaselineIsWellFormed(m: Manifest, c: Checkout, cwd: Path)
    requires IsBaseline(m, c, cwd)
    ensures WellFormed(m)
  {
  }

  lemma {:induction false} PrepareKeepsWellFormed(m: Manifest, c: Checkout, paths: seq<Path>)
    requires WellFormed(m)
    ensures WellFormed(PrepareAll(m, c, paths))
    decreases |paths|
  {
    hide Take, View, IsTaken;
    if paths != [] {
      TakenIsTaken(c, paths[0]);
      PrepareKeepsWellFormed(PrepareOne(m, c, paths[0]), c, paths[1..]);
    }
  }

  lemma {:induction false} CaptureKeepsWellFormed(m: Manifest, c: Checkout, paths: seq<Path>)
    requires WellFormed(m)
    ensures WellFormed(CaptureAll(m, c, paths))
    decreases |paths|
  {
    hide Take, IsTaken;
    if paths != [] && |m.touched| < MAX_SNAPSHOT_FILES {
      TakenIsTaken(c, paths[0]);
      CaptureKeepsWellFormed(CaptureOne(m, c, paths[0]), c, paths[1..]);
    }
  }

  lemma ReleaseKeepsWellFormed(m: Manifest, p: Path)
    requires WellFormed(m)
    ensures WellFormed(Release(m, p))
  {
    hide IsTaken;
  }

  // ------------------------------------------------------------------ traces

  datatype Situation = Situation(m: Manifest, c: Checkout)

  /** One session's boundaries, the release of a path by keep or undo, a new record after
      the old one was kept, undone or forgotten, and everything anybody does to the
      checkout in between. */
  datatype Event =
    | Prepare(paths: seq<Path>)
    | Capture(paths: seq<Path>)
    | Drop(path: Path)
    | Renew
    | Elsewhere

  ghost predicate Happens(s: Situation, e: Event, s': Situation) {
    match e
    case Prepare(paths) => s' == s.(m := PrepareAll(s.m, s.c, paths))
    case Capture(paths) => s' == s.(m := CaptureAll(s.m, s.c, paths))
    case Drop(p) => s'.m == Release(s.m, p)
    case Renew => s'.c == s.c && IsBaseline(s'.m, s.c, s.m.cwd)
    case Elsewhere => s'.m == s.m
  }

  ghost predicate Trace(states: seq<Situation>, events: seq<Event>) {
    && |states| == |events| + 1
    && forall i :: 0 <= i < |events| ==> Happens(states[i], events[i], states[i + 1])
  }

  /** A record made by `ensure` stays well-formed, whatever happens. */
  lemma {:induction false} WellFormedThroughout(states: seq<Situation>, events: seq<Event>, n: nat, cwd: Path)
    requires Trace(states, events) && n <= |events| && IsBaseline(states[0].m, states[0].c, cwd)
    ensures WellFormed(states[n].m)
    decreases n
  {
    hide WellFormed, IsBaseline;
    if n == 0 {
      BaselineIsWellFormed(states[0].m, states[0].c, cwd);
    } else {
      WellFormedThroughout(states, events, n - 1, cwd);
      var s := states[n - 1];
      assert Happens(s, events[n - 1], states[n]);
      match events[n - 1]
      case Prepare(paths) => PrepareKeepsWellFormed(s.m, s.c, paths);
      case Capture(paths) => CaptureKeepsWellFormed(s.m, s.c, paths);
      case Drop(p) => ReleaseKeepsWellFormed(s.m, p);
      case Renew => BaselineIsWellFormed(states[n].m, s.c, s.m.cwd);
      case Elsewhere =>
    }
  }

  /** A boundary and the state of the file there. */
  datatype Mark = Pre(view: FileState) | Post(view: FileState)

  /** The boundaries of `p` among the first `n` events, since its last release. */
  function Marks(states: seq<Situation>, events: seq<Event>, p: Path, n: nat): seq<Mark>
    requires n <= |events| < |states|
  {
    if n == 0 then [] else
    var earlier, s, e := Marks(states, events, p, n - 1), states[n - 1], events[n - 1];
    match e
    case Prepare(paths) => if p in paths then earlier + [Pre(WorktreeView(s.c, p))] else earlier
    case Capture(paths) =>
      if p in Recorded(s.m.touched, paths) then earlier + [Post(WorktreeView(s.c, p))] else earlier
    case Drop(q) => if q == p then [] else earlier
    case Renew => []
    case Elsewhere => earlier
  }

  predicate Alternate(marks: seq<Mark>) {
    forall i :: 0 <= i < |marks| ==> (marks[i].Pre? <==> i % 2 == 0)
  }

  /** The session's edits of `p` follow one another: each starts where the one before
      it ended. */
  predicate Unbroken(marks: seq<Mark>) {
    forall i :: 0 < i < |marks| && i % 2 == 0 ==> marks[i - 1].view == marks[i].view
  }

  /** What the record of a path says about its boundaries. */
  predicate Records(s: Slot, marks: seq<Mark>) {
    if marks == [] then !s.touched && !s.prepared && !s.diverged
    else
      && s.prepared && s.before.Some? && IsTaken(s.before.value) && View(s.before.value) == marks[0].view
      && (s.touched <==> |marks| >= 2)
      && (|marks| >= 2 ==>
            s.after.Some? && View(s.after.value) == marks[if |marks| % 2 == 0 then |marks| - 1 else |marks| - 2].view)
      && (s.diverged <==> !Unbroken(marks))
  }

  lemma PrepareRecords(s: Slot, marks: seq<Mark>, now: Snapshot)
    requires Records(s, marks) && IsTaken(now) && Alternate(marks + [Pre(View(now))])
    ensures Records(PrepareSlot(s, now), marks + [Pre(View(now))])
  {
    var next := marks + [Pre(View(now))];
    assert next[|marks|].Pre? && |marks| % 2 == 0;
    assert next[..|marks|] == marks;
    UnbrokenStep(marks, Pre(View(now)));
  }

  lemma CaptureRecords(s: Slot, marks: seq<Mark>, now: Snapshot, inHead: bool)
    requires Records(s, marks) && Alternate(marks + [Post(View(now))])
    ensures Records(CaptureSlot(s, now, inHead), marks + [Post(View(now))])
  {
    var next := marks + [Post(View(now))];
    assert next[|marks|].Post? && |marks| % 2 == 1;
    UnbrokenStep(marks, Post(View(now)));
  }

  lemma UnbrokenStep(marks: seq<Mark>, mark: Mark)
    ensures Unbroken(marks + [mark]) <==>
              Unbroken(marks) && (|marks| > 0 && |marks| % 2 == 0 ==> marks[|marks| - 1].view == mark.view)
  {
    var next := marks + [mark];
    assert forall i :: 0 <= i < |marks| ==> next[i] == marks[i];
    if Unbroken(next) {
      forall i | 0 < i < |marks| && i % 2 == 0 ensures marks[i - 1].view == marks[i].view {
        assert next[i - 1].view == next[i].view;
      }
    }
  }

  /** While boundaries of `p` alternate, its record holds the first state before and the
      last state after, and calls the path diverged exactly when some edit did not start
      where the session's previous edit had ended. */
  lemma {:induction false} BracketsChain(states: seq<Situation>, events: seq<Event>, p: Path, n: nat)
    requires Trace(states, events) && n <= |events|
    requires Records(SlotOf(states[0].m, p), [])
    requires forall k :: 0 <= k <= n ==> Alternate(Marks(states, events, p, k))
    ensures Records(SlotOf(states[n].m, p), Marks(states, events, p, n))
    decreases n
  {
    hide Records, SlotOf, PrepareSlot, CaptureSlot, Alternate, Take, View;
    if n > 0 {
      BracketsChain(states, events, p, n - 1);
      var s, earlier := states[n - 1], Marks(states, events, p, n - 1);
      assert Happens(s, events[n - 1], states[n]);
      assert Alternate(Marks(states, events, p, n));
      match events[n - 1]
      case Prepare(paths) =>
        PrepareAllSlot(s.m, s.c, paths, p);
        TakenIsTaken(s.c, p);
        if p in paths { PrepareRecords(SlotOf(s.m, p), earlier, Take(s.c, p)); }
      case Capture(paths) =>
        CaptureAllSlot(s.m, s.c, paths, p);
        if p in Recorded(s.m.touched, paths) {
          CaptureRecords(SlotOf(s.m, p), earlier, Take(s.c, p), InHead(s.c, p));
        }
      case Drop(q) =>
        ReleaseSlot(s.m, q, p);
        if q == p { UnclaimedRecords(); }
      case Renew => BaselineRecords(states[n].m, s.c, s.m.cwd, p);
      case Elsewhere =>
    }
  }

  lemma BaselineRecords(m: Manifest, c: Checkout, cwd: Path, p: Path)
    requires IsBaseline(m, c, cwd)
    ensures Records(SlotOf(m, p), [])
  {
  }

  lemma UnclaimedRecords()
    ensures Records(Unclaimed, [])
  {
  }

  // -------------------------------------------------------------------- undo

  /** Whenever undo accepts a path, the session's edits of it are an unbroken chain that
      ends in the file's present state, and undo gives back the state before the first. */
  lemma UndoReturnsToTheFirstBoundary(states: seq<Situation>, events: seq<Event>, p: Path, n: nat,
                                      foreign: set<Path>, listed: set<Path>)
    requires Trace(states, events) && n <= |events| && Records(SlotOf(states[0].m, p), [])
    requires forall k :: 0 <= k <= n ==> Alternate(Marks(states, events, p, k))
    requires Listed(states[n].m, states[n].c, p) && Undoable(states[n].m, states[n].c, foreign, p)
    requires p in listed
    ensures var s, marks := states[n], Marks(states, events, p, n);
            && |marks| >= 2 && Unbroken(marks)
            && WorktreeView(s.c, p) == marks[|marks| - 1].view
            && WorktreeView(Undone(s.m, s.c, listed), p) == marks[0].view
            && !marks[0].view.TooLarge?
  {
    BracketsChain(states, events, p, n);
    var s := states[n];
    UndoneAt(s.m, s.c, listed, p);
    hide Undone, Marks, Unbroken, Alternate, Happens;
    var marks := Marks(states, events, p, n);
    if |marks| % 2 == 1 {
      assert Unbroken(marks);
      LastPair(marks);
    }
    RevertedView(s.m, s.c, p, listed);
  }

  lemma LastPair(marks: seq<Mark>)
    requires Unbroken(marks) && |marks| >= 3 && |marks| % 2 == 1
    ensures marks[|marks| - 2].view == marks[|marks| - 1].view
  {
  }

  lemma RevertedView(m: Manifest, c: Checkout, p: Path, paths: set<Path>)
    requires p in paths && p in m.files && IsTaken(m.files[p]) && Listed(m, c, p)
    ensures WorktreeView(Undone(m, c, paths), p) == View(m.files[p])
  {
    UndoneAt(m, c, paths, p);
  }

  /** Undo of everything, at any point of any run: each listed path gets back its first
      state, no other path changes, and in particular none that another session claims. */
  lemma UndoAllIsScoped(states: seq<Situation>, events: seq<Event>, n: nat, cwd: Path, foreign: set<Path>)
    requires Trace(states, events) && n <= |events| && IsBaseline(states[0].m, states[0].c, cwd)
    requires forall p :: p in ListedPaths(states[n].m, states[n].c) ==> Undoable(states[n].m, states[n].c, foreign, p)
    ensures var m, c := states[n].m, states[n].c;
            var c' := Undone(m, c, ListedPaths(m, c));
            && (forall p :: p in ListedPaths(m, c) ==>
                  p in m.files && WorktreeView(c', p) == View(m.files[p]) && p !in foreign)
            && (forall p :: p !in ListedPaths(m, c) ==> Same(c, c', p))
            && (forall p :: p in foreign ==> Same(c, c', p))
  {
    WellFormedThroughout(states, events, n, cwd);
    var m, c := states[n].m, states[n].c;
    var listed := ListedPaths(m, c);
    var c' := Undone(m, c, listed);
    forall p | p in listed
      ensures p in m.files && WorktreeView(c', p) == View(m.files[p]) && p !in foreign
    {
      RevertedView(m, c, p, listed);
    }
    forall p | p !in listed ensures Same(c, c', p) { UndoneAt(m, c, listed, p); }
  }

  predicate Same(c: Checkout, c': Checkout, p: Path) {
    && (p in c.tree <==> p in c'.tree)
    && (p in c.tree ==> c.tree[p] == c'.tree[p])
    && c.head == c'.head && c.ignored == c'.ignored
  }

  /** One session's undo leaves every other session's review as it was, and takes away
      only obstacles to undoing it. */
  lemma UndoLeavesOthersReview(s: Store, cwd: Path, one: string, other: string, p: Path)
    requires Matches(s, one, cwd) && Matches(s, other, cwd) && one != other
    requires forall q :: q in ListedPaths(s.manifests[one], s.checkouts[cwd]) ==>
               Undoable(s.manifests[one], s.checkouts[cwd], Foreign(s, cwd, one), q)
    ensures var c, m := s.checkouts[cwd], s.manifests[other];
            var c' := Undone(s.manifests[one], c, ListedPaths(s.manifests[one], c));
            var s' := Store(s.manifests - {one}, s.checkouts[cwd := c']);
            && (Listed(m, c', p) <==> Listed(m, c, p))
            && (Listed(m, c, p) && Undoable(m, c, Foreign(s, cwd, other), p) ==>
                  Undoable(m, c', Foreign(s', cwd, other), p))
  {
    var c, m := s.checkouts[cwd], s.manifests[other];
    var listed := ListedPaths(s.manifests[one], c);
    var c' := Undone(s.manifests[one], c, listed);
    if p in Claims(m) {
      assert p in Foreign(s, cwd, one) && p !in listed;
      UndoneAt(s.manifests[one], c, listed, p);
      SameIsListedAlike(m, c, c', p);
    }
  }

  lemma SameIsListedAlike(m: Manifest, c: Checkout, c': Checkout, p: Path)
    requires Same(c, c', p)
    ensures Listed(m, c', p) <==> Listed(m, c, p)
    ensures AfterMatches(m, c', p) <==> AfterMatches(m, c, p)
  {
  }

  // --------------------------------------------------- files over the limit

  function ContentsAt(c: Checkout, p: Path): Option<Bytes> {
    if p in c.tree then Some(c.tree[p].bytes) else None
  }

  predicate IsOversized(c: Checkout, p: Path) { p in c.tree && |c.tree[p].bytes| > MAX_TEXT_FILE_BYTES }

  /** Two states of a file look the same if they are, or if both are oversized. */
  lemma SameViewIff(c: Checkout, c': Checkout, p: Path)
    ensures WorktreeView(c, p) == WorktreeView(c', p) <==>
              ContentsAt(c, p) == ContentsAt(c', p) || (IsOversized(c, p) && IsOversized(c', p))
  {
  }

  /** When the boundaries of `p` since its last release took place. */
  function Boundaries(states: seq<Situation>, events: seq<Event>, p: Path, n: nat): (at: seq<nat>)
    requires n <= |events| < |states|
    ensures forall i :: 0 <= i < |at| ==> at[i] < n
  {
    if n == 0 then [] else
    var earlier, s, e := Boundaries(states, events, p, n - 1), states[n - 1], events[n - 1];
    match e
    case Prepare(paths) => if p in paths then earlier + [n - 1] else earlier
    case Capture(paths) => if p in Recorded(s.m.touched, paths) then earlier + [n - 1] else earlier
    case Drop(q) => if q == p then [] else earlier
    case Renew => []
    case Elsewhere => earlier
  }

  lemma {:induction false} MarksAreViews(states: seq<Situation>, events: seq<Event>, p: Path, n: nat)
    requires n <= |events| < |states|
    ensures var marks, at := Marks(states, events, p, n), Boundaries(states, events, p, n);
            |at| == |marks| && forall i :: 0 <= i < |at| ==> marks[i].view == WorktreeView(states[at[i]].c, p)
    decreases n
  {
    hide Recorded, WorktreeView;
    if n > 0 { MarksAreViews(states, events, p, n - 1); }
  }

  /** Between one edit of the session and the next, and since its last boundary, whatever
      happens to the file is somebody else's. */
  predicate IsSeam(count: nat, i: nat) { 0 < i <= count && (i % 2 == 0 || i == count) }

  /** The two sides of a seam. */
  function Sides(states: seq<Situation>, at: seq<nat>, n: nat, i: nat): (Checkout, Checkout)
    requires 0 < i <= |at| && n < |states| && forall k :: 0 <= k < |at| ==> at[k] < n
  {
    (states[at[i - 1]].c, states[if i < |at| then at[i] else n].c)
  }

  /** Somebody else edited the file at a seam. */
  predicate EditedAt(states: seq<Situation>, at: seq<nat>, n: nat, i: nat, p: Path)
    requires 0 < i <= |at| && n < |states| && forall k :: 0 <= k < |at| ==> at[k] < n
  {
    var (c, c') := Sides(states, at, n, i);
    ContentsAt(c, p) != ContentsAt(c', p)
  }

  predicate OversizedAt(states: seq<Situation>, at: seq<nat>, n: nat, i: nat, p: Path)
    requires 0 < i <= |at| && n < |states| && forall k :: 0 <= k < |at| ==> at[k] < n
  {
    var (c, c') := Sides(states, at, n, i);
    IsOversized(c, p) && IsOversized(c', p)
  }

  predicate LooksTheSame(states: seq<Situation>, at: seq<nat>, n: nat, i: nat, p: Path)
    requires 0 < i <= |at| && n < |states| && forall k :: 0 <= k < |at| ==> at[k] < n
  {
    var (c, c') := Sides(states, at, n, i);
    WorktreeView(c, p) == WorktreeView(c', p)
  }

  /** In every run, a change that no other session claims may be undone if and only if
      nobody else edited the file between the session's edits or since, except where both
      the edited and the resulting file were oversized. So these are exactly the foreign
      edits an undo discards. */
  lemma ForeignEditIsNoticedIff(states: seq<Situation>, events: seq<Event>, p: Path, n: nat, foreign: set<Path>)
    requires Trace(states, events) && n <= |events| && Records(SlotOf(states[0].m, p), [])
    requires forall k :: 0 <= k <= n ==> Alternate(Marks(states, events, p, k))
    requires Listed(states[n].m, states[n].c, p) && p !in foreign
    ensures var at := Boundaries(states, events, p, n);
            Undoable(states[n].m, states[n].c, foreign, p) <==>
              forall i: nat :: IsSeam(|at|, i) && EditedAt(states, at, n, i, p) ==> OversizedAt(states, at, n, i, p)
  {
    BracketsChain(states, events, p, n);
    MarksAreViews(states, events, p, n);
    var at, marks := Boundaries(states, events, p, n), Marks(states, events, p, n);
    hide Alternate, Boundaries, Marks, WorktreeView, Trace;
    ListedIsUndoableIff(states[n].m, states[n].c, foreign, p, marks);
    SeamsAreMarks(states, at, marks, n, p);
    forall i: nat | IsSeam(|at|, i)
      ensures LooksTheSame(states, at, n, i, p) <==> EditedAt(states, at, n, i, p) ==> OversizedAt(states, at, n, i, p)
    {
      var (c, c') := Sides(states, at, n, i);
      SameViewIff(c, c', p);
    }
  }

  /** The marks match at every seam. */
  ghost predicate Seamless(marks: seq<Mark>, now: FileState) {
    forall i: nat :: IsSeam(|marks|, i) ==> MatchesAt(marks, now, i)
  }

  predicate MatchesAt(marks: seq<Mark>, now: FileState, i: nat)
    requires 0 < i <= |marks|
  {
    marks[i - 1].view == if i < |marks| then marks[i].view else now
  }

  lemma ListedIsUndoableIff(m: Manifest, c: Checkout, foreign: set<Path>, p: Path, marks: seq<Mark>)
    requires Listed(m, c, p) && Records(SlotOf(m, p), marks) && p !in foreign
    ensures Undoable(m, c, foreign, p) <==> Seamless(marks, WorktreeView(c, p))
  {
    hide WorktreeView, FileDiffers;
    var now, size := WorktreeView(c, p), |marks|;
    assert size >= 2;
    if Unbroken(marks) && size % 2 == 1 { LastPair(marks); }
    if Seamless(marks, now) {
      assert IsSeam(size, size) && MatchesAt(marks, now, size);
      forall i | 0 < i < size && i % 2 == 0 ensures marks[i - 1].view == marks[i].view {
        assert IsSeam(size, i) && MatchesAt(marks, now, i);
      }
    }
  }

  lemma SeamsAreMarks(states: seq<Situation>, at: seq<nat>, marks: seq<Mark>, n: nat, p: Path)
    requires |at| == |marks| && n < |states| && forall k :: 0 <= k < |at| ==> at[k] < n
    requires forall i :: 0 <= i < |at| ==> marks[i].view == WorktreeView(states[at[i]].c, p)
    ensures Seamless(marks, WorktreeView(states[n].c, p)) <==>
              forall i: nat :: IsSeam(|at|, i) ==> LooksTheSame(states, at, n, i, p)
  {
    hide WorktreeView;
    forall i: nat | IsSeam(|at|, i)
      ensures MatchesAt(marks, WorktreeView(states[n].c, p), i) <==> LooksTheSame(states, at, n, i, p)
    {
    }
  }

  function Filled(b: bv8): Bytes { seq(MAX_TEXT_FILE_BYTES + 1, _ => b) }

  /** So undo can discard a foreign edit of an oversized file: the session grew a small
      file beyond the limit, somebody replaced it by another large one, and the path
      still counts as this session's own. */
  lemma OversizedEditIsLost(small: Bytes)
    requires |small| <= MAX_TEXT_FILE_BYTES
    ensures exists states: seq<Situation>, events: seq<Event> ::
              && Trace(states, events) && |events| == 4
              && Records(SlotOf(states[0].m, "a"), []) && Alternate(Marks(states, events, "a", 4))
              && (var s := states[4];
                  && "a" in s.c.tree && "a" in states[2].c.tree
                  && s.c.tree["a"].bytes != states[2].c.tree["a"].bytes
                  && Listed(s.m, s.c, "a") && Undoable(s.m, s.c, {}, "a")
                  && WorktreeView(Undone(s.m, s.c, {"a"}), "a") == Text(small))
  {
    var c0 := Checkout(map["a" := File(small, 0x1A4)], None, {});
    var c1 := Checkout(map["a" := File(Filled(0), 0x1A4)], None, {});
    var c2 := Checkout(map["a" := File(Filled(1), 0x1A4)], None, {});
    assert Filled(0)[0] != Filled(1)[0];
    assert Take(c0, "a") == Contents(small, 0x1A4) && Take(c1, "a") == Skipped && Take(c2, "a") == Skipped;
    hide Filled, Take;
    OversizedEdit(small, c0, c1, c2);
  }

  lemma OversizedEdit(small: Bytes, c0: Checkout, c1: Checkout, c2: Checkout)
    requires "a" in c1.tree && "a" in c2.tree && c1.tree["a"].bytes != c2.tree["a"].bytes
    requires c0.head == None && c1.head == None && c2.head == None && |small| <= MAX_TEXT_FILE_BYTES
    requires Take(c0, "a") == Contents(small, 0x1A4) && Take(c1, "a") == Skipped && Take(c2, "a") == Skipped
    ensures exists states: seq<Situation>, events: seq<Event> ::
              && Trace(states, events) && |events| == 4
              && Records(SlotOf(states[0].m, "a"), []) && Alternate(Marks(states, events, "a", 4))
              && (var s := states[4];
                  && "a" in s.c.tree && "a" in states[2].c.tree
                  && s.c.tree["a"].bytes != states[2].c.tree["a"].bytes
                  && Listed(s.m, s.c, "a") && Undoable(s.m, s.c, {}, "a")
                  && WorktreeView(Undone(s.m, s.c, {"a"}), "a") == Text(small))
  {
    var m0 := Manifest("", map[], {}, {}, {}, map[], {});
    var m1, m2 := PrepareAll(m0, c0, ["a"]), CaptureAll(PrepareAll(m0, c0, ["a"]), c1, ["a"]);
    assert m1 == PrepareOne(m0, c0, "a") && m2 == CaptureOne(m1, c1, "a");
    var states := [Situation(m0, c0), Situation(m1, c0), Situation(m1, c1), Situation(m2, c1), Situation(m2, c2)];
    var events := [Prepare(["a"]), Elsewhere, Capture(["a"]), Elsewhere];
    assert m2 == Manifest("", map["a" := Contents(small, 0x1A4)], {"a"}, {}, {"a"}, map["a" := Skipped], {});
    assert Listed(m2, c2, "a") && Undoable(m2, c2, {}, "a");
    RevertedView(m2, c2, "a", {"a"});
    assert Recorded({}, ["a"]) == ["a"];
    hide Take, Undone, PrepareAll, CaptureAll, Listed, Undoable;
    assert Trace(states, events);
    assert Marks(states, events, "a", 1) == [Pre(Text(small))];
    assert Marks(states, events, "a", 2) == [Pre(Text(small))];
    assert Marks(states, events, "a", 3) == [Pre(Text(small)), Post(TooLarge)];
    assert Marks(states, events, "a", 4) == [Pre(Text(small)), Post(TooLarge)];
  }
}
