/** What a session has to review, in every run of `src-tauri/src/checkpoint.rs`, told from the
    states of its files at its boundaries. */
module CheckpointReview {
  import opened Wrappers
  import opened Checkpoint
  import opened CheckpointUndo

  // ------------------------------------------------- what was in the commit

  /** The record began with the path as a committed file that was dirty. */
  function FromBaseline(states: seq<Situation>, events: seq<Event>, p: Path, n: nat): bool
    requires n <= |events| < |states|
  {
    if n == 0 then p in states[0].m.tracked else
    match events[n - 1]
    case Drop(q) => q != p && FromBaseline(states, events, p, n - 1)
    case Renew => p in states[n].m.tracked
    case _ => FromBaseline(states, events, p, n - 1)
  }

  /** The boundaries that look at the commit: the first, and each that ends an edit. */
  predicate LooksAtHead(i: nat) { i == 0 || i % 2 == 1 }

  /** The path was committed when the record began or when such a boundary was recorded. */
  ghost predicate WasCommitted(states: seq<Situation>, events: seq<Event>, p: Path, n: nat)
    requires n <= |events| < |states|
  {
    || FromBaseline(states, events, p, n)
    || exists i: nat :: i < |Boundaries(states, events, p, n)| && LooksAtHead(i)
                        && InHead(states[Boundaries(states, events, p, n)[i]].c, p)
  }

  lemma {:induction false} PrepareAllTracked(m: Manifest, c: Checkout, paths: seq<Path>, q: Path)
    ensures q in PrepareAll(m, c, paths).tracked <==>
              if q in paths && q !in m.prepared then InHead(c, q) || (q !in m.touched && q in m.tracked) else q in m.tracked
    decreases |paths|
  {
    hide Take, View, InHead, PrepareOne, SlotOf;
    if paths != [] {
      PrepareOneSlot(m, c, paths[0], q);
      PrepareOneTracked(m, c, paths[0], q);
      PrepareAllTracked(PrepareOne(m, c, paths[0]), c, paths[1..], q);
    }
  }

  lemma PrepareOneTracked(m: Manifest, c: Checkout, p: Path, q: Path)
    ensures var m' := PrepareOne(m, c, p);
            && (q in m'.tracked <==>
                  if q == p && q !in m.prepared then InHead(c, q) || (q !in m.touched && q in m.tracked) else q in m.tracked)
            && (q == p ==> q in m'.prepared) && (q != p ==> (q in m'.prepared <==> q in m.prepared))
            && (q != p ==> (q in m'.touched <==> q in m.touched))
  {
    hide Take, View, InHead;
  }

  lemma {:induction false} CaptureAllTracked(m: Manifest, c: Checkout, paths: seq<Path>, q: Path)
    ensures q in CaptureAll(m, c, paths).tracked <==>
              q in m.tracked || (q in Recorded(m.touched, paths) && InHead(c, q))
    decreases |paths|
  {
    hide Take, InHead;
    if paths != [] && |m.touched| < MAX_SNAPSHOT_FILES {
      CaptureAllTracked(CaptureOne(m, c, paths[0]), c, paths[1..], q);
    }
  }

  lemma OneMoreBoundary(states: seq<Situation>, at: seq<nat>, k: nat, p: Path)
    requires k < |states| && forall i :: 0 <= i < |at| ==> at[i] < |states|
    ensures var next := at + [k];
            (exists i: nat :: i < |next| && LooksAtHead(i) && InHead(states[next[i]].c, p)) <==>
              || (exists i: nat :: i < |at| && LooksAtHead(i) && InHead(states[at[i]].c, p))
              || (LooksAtHead(|at|) && InHead(states[k].c, p))
  {
    var next := at + [k];
    hide InHead;
    if i: nat :| i < |at| && LooksAtHead(i) && InHead(states[at[i]].c, p) {
      assert next[i] == at[i];
    }
    if LooksAtHead(|at|) && InHead(states[k].c, p) {
      assert next[|at|] == k;
    }
  }

  /** The record knows a path as committed exactly if it was. */
  lemma {:induction false} TrackedIff(states: seq<Situation>, events: seq<Event>, p: Path, n: nat)
    requires Trace(states, events) && n <= |events| && Records(SlotOf(states[0].m, p), [])
    requires forall k :: 0 <= k <= n ==> Alternate(Marks(states, events, p, k))
    ensures p in states[n].m.tracked <==> WasCommitted(states, events, p, n)
    decreases n
  {
    hide InHead, Alternate, Records, SlotOf, LooksAtHead, Take, View;
    if n > 0 {
      TrackedIff(states, events, p, n - 1);
      BracketsChain(states, events, p, n - 1);
      MarksAreViews(states, events, p, n - 1);
      TrackedStep(states, events, p, n);
    }
  }

  lemma TrackedStep(states: seq<Situation>, events: seq<Event>, p: Path, n: nat)
    requires Trace(states, events) && 0 < n <= |events|
    requires Alternate(Marks(states, events, p, n))
    requires |Boundaries(states, events, p, n - 1)| == |Marks(states, events, p, n - 1)|
    requires Records(SlotOf(states[n - 1].m, p), Marks(states, events, p, n - 1))
    requires p in states[n - 1].m.tracked <==> WasCommitted(states, events, p, n - 1)
    ensures p in states[n].m.tracked <==> WasCommitted(states, events, p, n)
  {
    var s, e, at := states[n - 1], events[n - 1], Boundaries(states, events, p, n - 1);
    assert Happens(s, e, states[n]);
    var marks := Marks(states, events, p, n - 1);
    RecordsPrepared(s.m, p, marks);
    OneMoreBoundary(states, at, n - 1, p);
    match e
    case Prepare(paths) =>
      if p in paths { PreIsEven(marks, WorktreeView(s.c, p)); }
      hide Marks, Alternate, InHead, Records, SlotOf, Trace;
      PrepareAllTracked(s.m, s.c, paths, p);
    case Capture(paths) =>
      if p in Recorded(s.m.touched, paths) { PostIsOdd(marks, WorktreeView(s.c, p)); }
      hide Marks, Alternate, InHead, Records, SlotOf, Trace, Recorded;
      CaptureAllTracked(s.m, s.c, paths, p);
    case _ =>
      hide Marks, Alternate, InHead, Records, SlotOf, Trace;
  }

  lemma RecordsPrepared(m: Manifest, p: Path, marks: seq<Mark>)
    requires Records(SlotOf(m, p), marks)
    ensures (p in m.prepared <==> marks != []) && (p in m.touched <==> |marks| >= 2)
  {
  }

  lemma PreIsEven(marks: seq<Mark>, view: FileState)
    requires Alternate(marks + [Pre(view)])
    ensures |marks| % 2 == 0 && (LooksAtHead(|marks|) <==> marks == [])
  {
    var next := marks + [Pre(view)];
    assert next[|marks|].Pre?;
  }

  lemma PostIsOdd(marks: seq<Mark>, view: FileState)
    requires Alternate(marks + [Post(view)])
    ensures LooksAtHead(|marks|)
  {
    var next := marks + [Post(view)];
    assert next[|marks|].Post?;
  }

  // ------------------------------------------------------------------ reviews

  /** The state after the session's last edit. */
  function LastEdit(marks: seq<Mark>): FileState
    requires |marks| >= 2
  {
    marks[if |marks| % 2 == 0 then |marks| - 1 else |marks| - 2].view
  }

  /** Git finds nothing to say about the path. */
  predicate GitIsClean(c: Checkout, p: Path) {
    || c.head.None?
    || (p !in c.head.value.tree && p in c.ignored)
    || ((p in c.tree <==> p in c.head.value.tree)
        && (p in c.tree ==> Blob(c.tree[p].bytes, Executable(c.tree[p].mode)) == c.head.value.tree[p]))
  }

  /** In every run, a session has a path to review if and only if it has edited it, its last
      edit does not end where its first began, the file is not as it was then, which is
      known, and the change is not committed: git does not report a path that it has, or had
      at a boundary, in a commit. */
  lemma ReviewListsIff(states: seq<Situation>, events: seq<Event>, p: Path, n: nat, foreign: set<Path>)
    requires Trace(states, events) && n <= |events| && Records(SlotOf(states[0].m, p), [])
    requires forall k :: 0 <= k <= n ==> Alternate(Marks(states, events, p, k))
    ensures var m, c, marks := states[n].m, states[n].c, Marks(states, events, p, n);
            p in PathsOf(Review(m, c, foreign)) <==>
              && |marks| >= 2 && marks[0].view != LastEdit(marks)
              && WorktreeView(c, p) != marks[0].view && !marks[0].view.TooLarge?
              && !(GitIsClean(c, p) && (InHead(c, p) || WasCommitted(states, events, p, n)))
  {
    BracketsChain(states, events, p, n);
    TrackedIff(states, events, p, n);
    hide WasCommitted, Trace, Alternate, Marks;
    ListedByMarks(states[n].m, states[n].c, p, Marks(states, events, p, n));
    ReviewLists(states[n].m, states[n].c, foreign);
  }

  lemma CleanIff(c: Checkout, p: Path)
    ensures p in Dirty(c) <==> !GitIsClean(c, p)
  {
  }

  lemma ListedByMarks(m: Manifest, c: Checkout, p: Path, marks: seq<Mark>)
    requires Records(SlotOf(m, p), marks)
    ensures p in m.touched && Listed(m, c, p) <==>
              && |marks| >= 2 && marks[0].view != LastEdit(marks)
              && WorktreeView(c, p) != marks[0].view && !marks[0].view.TooLarge?
              && !(GitIsClean(c, p) && (InHead(c, p) || p in m.tracked))
  {
    CleanIff(c, p);
    hide WorktreeView, Dirty, GitIsClean, InHead;
  }

  /** What each entry says: exact while the session's edits follow one another, and undoable
      only if nobody else claims the file, or has changed it noticeably. */
  lemma EntriesSay(states: seq<Situation>, events: seq<Event>, n: nat, foreign: set<Path>, e: Entry)
    requires Trace(states, events) && n <= |events| && Records(SlotOf(states[0].m, e.path), [])
    requires forall k :: 0 <= k <= n ==> Alternate(Marks(states, events, e.path, k))
    requires e in Review(states[n].m, states[n].c, foreign)
    ensures var at := Boundaries(states, events, e.path, n);
            && (e.exact <==> Unbroken(Marks(states, events, e.path, n)))
            && (e.undoable <==>
                  && e.path !in foreign
                  && forall i: nat :: IsSeam(|at|, i) && EditedAt(states, at, n, i, e.path) ==>
                       OversizedAt(states, at, n, i, e.path))
  {
    BracketsChain(states, events, e.path, n);
    ReviewLists(states[n].m, states[n].c, foreign);
    assert e.path in PathsOf(Review(states[n].m, states[n].c, foreign));
    RecordsDiverged(states[n].m, e.path, Marks(states, events, e.path, n));
    if e.path !in foreign {
      ForeignEditIsNoticedIff(states, events, e.path, n, foreign);
    }
    hide Trace, Alternate, Marks, Boundaries, Listed, EditedAt, OversizedAt;
  }

  lemma RecordsDiverged(m: Manifest, p: Path, marks: seq<Mark>)
    requires Records(SlotOf(m, p), marks) && marks != []
    ensures p in m.diverged <==> !Unbroken(marks)
  {
  }

  /** A committed edit is neither to review nor touched by an undo of everything. */
  lemma CommittedEditIsSettled(states: seq<Situation>, events: seq<Event>, p: Path, n: nat, foreign: set<Path>)
    requires Trace(states, events) && n <= |events| && Records(SlotOf(states[0].m, p), [])
    requires forall k :: 0 <= k <= n ==> Alternate(Marks(states, events, p, k))
    requires InHead(states[n].c, p) && p in states[n].c.tree
    requires var file := states[n].c.tree[p];
             Blob(file.bytes, Executable(file.mode)) == states[n].c.head.value.tree[p]
    ensures var m, c := states[n].m, states[n].c;
            p !in PathsOf(Review(m, c, foreign)) && Same(c, Undone(m, c, ListedPaths(m, c)), p)
  {
    ReviewListsIff(states, events, p, n, foreign);
    var m, c := states[n].m, states[n].c;
    ReviewLists(m, c, foreign);
    UndoneAt(m, c, ListedPaths(m, c), p);
    hide Trace, Alternate, Marks, Listed, WasCommitted, Reverted, Undone;
  }

  /** Other sessions of the checkout respect a path as soon as this one has edited it. */
  lemma ClaimedIff(states: seq<Situation>, events: seq<Event>, p: Path, n: nat)
    requires Trace(states, events) && n <= |events| && Records(SlotOf(states[0].m, p), [])
    requires forall k :: 0 <= k <= n ==> Alternate(Marks(states, events, p, k))
    ensures p in Claims(states[n].m) <==> |Marks(states, events, p, n)| >= 2
  {
    BracketsChain(states, events, p, n);
    hide Trace, Alternate, Marks;
    RecordsPrepared(states[n].m, p, Marks(states, events, p, n));
  }

  /** They are the sessions with a record of the same checkout. */
  lemma ForeignIff(s: Store, cwd: Path, session: string, p: Path)
    requires cwd in s.checkouts
    ensures p in Foreign(s, cwd, session) <==>
              exists k :: k in s.manifests && k != session && s.manifests[k].cwd == cwd
                          && p in s.manifests[k].touched && p in s.manifests[k].prepared
  {
    if k :| k in s.manifests && k != session && s.manifests[k].cwd == cwd
            && p in s.manifests[k].touched && p in s.manifests[k].prepared
    {
      assert p in Claims(s.manifests[k]);
    }
  }

  /** A review is of the session's own checkout, if it has a record of it. */
  lemma ReviewIsOfItsCheckout(s: Store, session: string, cwd: Path)
    ensures ReviewIn(s, session, cwd) != {} ==>
              session in s.manifests && s.manifests[session].cwd == cwd && cwd in s.checkouts
    ensures session in s.manifests && s.manifests[session].cwd == cwd && cwd in s.checkouts ==>
              ReviewIn(s, session, cwd) == Review(s.manifests[session], s.checkouts[cwd], Foreign(s, cwd, session))
  {
    hide Review, Foreign;
  }

  /** Undo keeps the permissions of a file that is still there, and makes a new one as new
      files are made. */
  lemma UndoKeepsPermissions(m: Manifest, c: Checkout, paths: set<Path>, p: Path)
    requires p in paths && p in m.files && p in Undone(m, c, paths).tree
    ensures Undone(m, c, paths).tree[p].mode == if p in c.tree then c.tree[p].mode else 0x1A4
  {
    UndoneAt(m, c, paths, p);
  }

  /** A verified record is of the session's own edits: nobody else edited a file it holds
      between two of them or since, but for one oversized file in place of another. */
  lemma VerifiedEditsAreOwn(states: seq<Situation>, events: seq<Event>, p: Path, n: nat)
    requires Trace(states, events) && n <= |events| && Records(SlotOf(states[0].m, p), [])
    requires forall k :: 0 <= k <= n ==> Alternate(Marks(states, events, p, k))
    requires Verified(states[n].m, states[n].c) && p in states[n].m.files
    ensures Unbroken(Marks(states, events, p, n))
    ensures |Marks(states, events, p, n)| >= 2 ==> WorktreeView(states[n].c, p) == LastEdit(Marks(states, events, p, n))
  {
    BracketsChain(states, events, p, n);
    hide Trace, Alternate, Marks;
    var m, marks := states[n].m, Marks(states, events, p, n);
    RecordsPrepared(m, p, marks);
    assert PathVerified(m, states[n].c, p) && p !in m.diverged;
    if marks != [] { RecordsDiverged(m, p, marks); }
  }
}
