/** Transfer of an isolated worker's result in `src-tauri/src/checkpoint.rs`, and when its
    checkout may be thrown away. */
module CheckpointTransfer {
  import opened Wrappers
  import opened Checkpoint
  import opened CheckpointUndo

  /** The lead is where the worker started: the worker's first snapshots where it has
      any, the commit everywhere else. */
  ghost predicate AtBaseline(m: Manifest, lead: Checkout) {
    && (forall p :: p in m.files ==> Seen(lead, p) == Stored(m.files[p]))
    && (forall p :: p !in m.files ==> !IsDirty(lead, p))
  }

  lemma SeenIsTheFile(c: Checkout, c': Checkout, p: Path)
    requires Seen(c, p) == Seen(c', p) && !WorktreeView(c, p).TooLarge?
    ensures (p in c.tree <==> p in c'.tree) && (p in c.tree ==> c.tree[p] == c'.tree[p])
    ensures GitView(c, p) == GitView(c', p)
  {
  }

  /** A verified snapshot is what the worker's file is now. */
  lemma VerifiedIsSeen(m: Manifest, worker: Checkout, p: Path)
    requires Verified(m, worker) && p in m.files
    ensures Seen(worker, p) == Stored(if IsChanged(m, p) then m.after[p] else m.files[p])
    ensures !WorktreeView(worker, p).TooLarge?
    ensures IsChanged(m, p) ==> !m.after[p].Skipped? && IsTaken(m.after[p])
  {
    assert PathVerified(m, worker, p);
  }

  /** The lead takes the transfer exactly when the worker's record is complete. */
  lemma BaselineLeadFits(s: Store, session: string, from: Path, to: Path)
    requires Matches(s, session, from) && to in s.checkouts && from != to
    requires s.checkouts[from].head.Some? && s.checkouts[from].head == s.checkouts[to].head
    requires AtBaseline(s.manifests[session], s.checkouts[to])
    ensures CanApply(s, session, from, to) <==> Verified(s.manifests[session], s.checkouts[from])
  {
    hide Verified, IsDirty, Seen, Stored;
  }

  lemma TransferredFile(m: Manifest, worker: Checkout, lead: Checkout, p: Path)
    requires Verified(m, worker) && p in m.files && Changed(m) <= m.after.Keys
    requires Seen(lead, p) == Stored(m.files[p])
    ensures Seen(Applied(m, lead, Changed(m)), p) == Seen(worker, p)
  {
    VerifiedIsSeen(m, worker, p);
    SeenAfterWrite(m, lead, Changed(m), p);
  }

  /** After a transfer the two checkouts agree on every file git looks at, and down to
      the permissions on every file the worker recorded. */
  lemma TransferMakesCheckoutsEqual(m: Manifest, worker: Checkout, lead: Checkout)
    requires Verified(m, worker) && AtBaseline(m, lead)
    requires worker.head.Some? && worker.head == lead.head
    ensures Changed(m) <= m.after.Keys
    ensures var lead' := Applied(m, lead, Changed(m));
            && (forall p :: Visible(worker, p) && Visible(lead, p) ==> GitView(lead', p) == GitView(worker, p))
            && (forall p :: p in m.files ==> Seen(lead', p) == Seen(worker, p))
            && (forall p :: p !in m.files ==> GitView(lead', p) == GitView(lead, p))
  {
    assert Changed(m) <= m.after.Keys;
    var lead' := Applied(m, lead, Changed(m));
    forall p | p in m.files
      ensures Seen(lead', p) == Seen(worker, p) && GitView(lead', p) == GitView(worker, p)
    {
      TransferredFile(m, worker, lead, p);
      VerifiedIsSeen(m, worker, p);
      SeenIsTheFile(worker, lead', p);
    }
    forall p | p !in m.files
      ensures GitView(lead', p) == GitView(lead, p)
      ensures Visible(worker, p) && Visible(lead, p) ==> GitView(lead', p) == GitView(worker, p)
    {
      AppliedAt(m, lead, Changed(m), p);
      assert p !in Dirty(worker);
    }
  }

  /** So an accepted transfer does, to a lead that is where the worker started. */
  lemma AcceptedTransferMakesEqual(s: Store, session: string, from: Path, to: Path)
    requires CanApply(s, session, from, to) && AtBaseline(s.manifests[session], s.checkouts[to])
    ensures var m, worker, lead := s.manifests[session], s.checkouts[from], s.checkouts[to];
            && m.cwd == from && from != to && Changed(m) <= m.after.Keys
            && var lead' := Applied(m, lead, Changed(m));
               && (forall p :: Visible(worker, p) && Visible(lead, p) ==> GitView(lead', p) == GitView(worker, p))
               && (forall p :: p in m.files ==> Seen(lead', p) == Seen(worker, p))
  {
    hide Verified, Seen, Stored, GitView, Visible;
    TransferMakesCheckoutsEqual(s.manifests[session], s.checkouts[from], s.checkouts[to]);
  }

  /** And to any lead at all it loses nothing: a file it changes was as the worker found it,
      in contents and permissions, and becomes as the worker left it. */
  lemma TransferLosesNothing(s: Store, session: string, from: Path, to: Path, p: Path)
    requires CanApply(s, session, from, to)
    ensures var m, worker, lead := s.manifests[session], s.checkouts[from], s.checkouts[to];
            && Changed(m) <= m.after.Keys
            && var lead' := Applied(m, lead, Changed(m));
               && (IsSameFile(lead, lead', p)
                   || (p in m.files && IsSnapshotOf(m.files[p], lead, p) && IsSameFile(worker, lead', p)))
               && (p !in m.files ==> IsSameFile(lead, lead', p))
  {
    var m, worker, lead := s.manifests[session], s.checkouts[from], s.checkouts[to];
    AppliedAt(m, lead, Changed(m), p);
    if p in Changed(m) {
      VerifiedIsSeen(m, worker, p);
      SeenIsSame(worker, m.after[p], p);
      assert LeadFits(m, lead, p);
      SeenAfterWrite(m, lead, Changed(m), p);
    }
    hide Verified, Matches, Dirty;
  }

  /** The snapshot holds exactly the file, if there is one. */
  predicate IsSnapshotOf(s: Snapshot, c: Checkout, p: Path) {
    match s
    case Missing => p !in c.tree
    case Contents(bytes, mode) => p in c.tree && c.tree[p].bytes == bytes && c.tree[p].mode == mode
    case Skipped => p in c.tree && |c.tree[p].bytes| > MAX_TEXT_FILE_BYTES
  }

  predicate IsSameFile(c: Checkout, c': Checkout, p: Path) {
    (p in c.tree <==> p in c'.tree) && (p in c.tree ==> c.tree[p] == c'.tree[p])
  }

  lemma SeenIsSame(c: Checkout, s: Snapshot, p: Path)
    requires Seen(c, p) == Stored(s) && !s.Skipped?
    ensures IsSnapshotOf(s, c, p)
  {
  }

  /** A transfer that stopped anywhere between two files can be started again, and ends
      as if it had not stopped. */
  lemma RestartEndsTheSame(s: Store, session: string, from: Path, to: Path, done: set<Path>)
    requires CanApply(s, session, from, to)
    requires done <= Changed(s.manifests[session]) <= s.manifests[session].after.Keys
    ensures var m, lead := s.manifests[session], s.checkouts[to];
            var half := Applied(m, lead, done);
            && CanApply(s.(checkouts := s.checkouts[to := half]), session, from, to)
            && Applied(m, half, Changed(m)) == Applied(m, lead, Changed(m))
            && AlreadyThere(m, half) == AlreadyThere(m, lead) + done
  {
    var m, worker, lead := s.manifests[session], s.checkouts[from], s.checkouts[to];
    var half := Applied(m, lead, done);
    hide LeadFits;
    forall p | p in Changed(m)
      ensures LeadFits(m, half, p)
      ensures p in AlreadyThere(m, half) <==> p in AlreadyThere(m, lead) || p in done
    {
      RestartFits(m, worker, lead, done, p);
    }
    AppliedTwice(m, lead, done, Changed(m));
  }

  lemma RestartFits(m: Manifest, worker: Checkout, lead: Checkout, done: set<Path>, p: Path)
    requires Verified(m, worker) && p in Changed(m) && done <= m.after.Keys && LeadFits(m, lead, p)
    ensures LeadFits(m, Applied(m, lead, done), p)
    ensures Seen(Applied(m, lead, done), p) == Stored(m.after[p]) <==>
              Seen(lead, p) == Stored(m.after[p]) || p in done
  {
    VerifiedIsSeen(m, worker, p);
    SeenAfterWrite(m, lead, done, p);
  }

  lemma AppliedTwice(m: Manifest, lead: Checkout, done: set<Path>, all: set<Path>)
    requires done <= all <= m.after.Keys
    ensures Applied(m, Applied(m, lead, done), all) == Applied(m, lead, all)
  {
    var half := Applied(m, lead, done);
    var x, y := Applied(m, half, all), Applied(m, lead, all);
    assert x == y.(tree := x.tree);
    hide Applied, Written;
    forall p ensures p in x.tree <==> p in y.tree {
      AppliedAt(m, half, all, p);
      AppliedAt(m, lead, all, p);
      AppliedAt(m, lead, done, p);
    }
    forall p | p in x.tree ensures x.tree[p] == y.tree[p] {
      AppliedAt(m, half, all, p);
      AppliedAt(m, lead, all, p);
      AppliedAt(m, lead, done, p);
    }
    assert x.tree == y.tree;
  }

  // ----------------------------------------------------------------- cleanup

  function SnapshotView(s: Snapshot): Option<Blob> {
    if s.Contents? then Some(Blob(s.bytes, Executable(s.mode))) else None
  }

  /** What `cleanup_safe` establishes: the checkout is its recorded snapshots and, off
      the record, its commit. */
  lemma CleanupSafeMeansOnRecord(m: Manifest, c: Checkout, p: Path)
    requires Verified(m, c) && Changed(m) == {} && Visible(c, p)
    ensures GitView(c, p) == if p in m.files then SnapshotView(m.files[p]) else OffRecordView(c, p)
  {
    if p in m.files {
      assert p !in Changed(m);
      VerifiedIsSeen(m, c, p);
      assert !m.files[p].Skipped?;
    } else {
      assert p !in Dirty(c);
    }
  }

  /** `p` had a boundary since its last release, among the first `n` events. */
  predicate HasBoundary(events: seq<Event>, p: Path, n: nat)
    requires n <= |events|
  {
    n > 0 &&
    match events[n - 1]
    case Prepare(paths) => p in paths || HasBoundary(events, p, n - 1)
    case Drop(q) => q != p && HasBoundary(events, p, n - 1)
    case Renew => false
    case _ => HasBoundary(events, p, n - 1)
  }

  /** The state in which the recorded snapshot of `p` was taken: its first boundary since
      its last release, or else the beginning of the record. */
  function TakenAt(events: seq<Event>, p: Path, n: nat): (k: nat)
    requires n <= |events|
    ensures k <= n
  {
    if n == 0 then 0
    else
      match events[n - 1]
      case Prepare(paths) =>
        if p in paths && !HasBoundary(events, p, n - 1) then n - 1 else TakenAt(events, p, n - 1)
      case Renew => n - 1
      case _ => TakenAt(events, p, n - 1)
  }

  ghost predicate SlotTaken(states: seq<Situation>, events: seq<Event>, p: Path, n: nat)
    requires n <= |events| < |states|
  {
    var s := SlotOf(states[n].m, p);
    && (s.prepared <==> HasBoundary(events, p, n))
    && (s.prepared ==> s.before.Some?)
    && (s.before.Some? && (s.prepared || !s.touched) ==>
          s.before == Some(Take(states[TakenAt(events, p, n)].c, p)))
  }

  lemma BaselineSlot(m: Manifest, c: Checkout, cwd: Path, p: Path)
    requires IsBaseline(m, c, cwd)
    ensures !SlotOf(m, p).prepared && (SlotOf(m, p).before.Some? ==> SlotOf(m, p).before == Some(Take(c, p)))
  {
  }

  /** Along every run, a prepared path keeps the snapshot of its first boundary since its
      last release, an untouched one that of the beginning of the record. */
  lemma {:induction false} SnapshotsAreFirstBoundaries(states: seq<Situation>, events: seq<Event>, p: Path, n: nat,
                                                       cwd: Path)
    requires Trace(states, events) && n <= |events| && IsBaseline(states[0].m, states[0].c, cwd)
    ensures SlotTaken(states, events, p, n)
    decreases n
  {
    hide SlotOf, Take, View, IsBaseline;
    if n == 0 {
      BaselineSlot(states[0].m, states[0].c, cwd, p);
    } else {
      SnapshotsAreFirstBoundaries(states, events, p, n - 1, cwd);
      var s, e := states[n - 1], events[n - 1];
      assert Happens(s, e, states[n]);
      match e
      case Prepare(paths) => PrepareAllSlot(s.m, s.c, paths, p);
      case Capture(paths) => CaptureAllSlot(s.m, s.c, paths, p);
      case Drop(q) => ReleaseSlot(s.m, q, p);
      case Renew => BaselineSlot(states[n].m, s.c, s.m.cwd, p);
      case Elsewhere =>
    }
  }

  /** No file has changed since the beginning, as git sees it. */
  ghost predicate Unchanged(c0: Checkout, c: Checkout) {
    forall p :: Visible(c, p) ==> GitView(c, p) == GitView(c0, p)
  }

  /** What is known of a file off the record: git compares it with the commit, and
      outside a repository nothing does. */
  function OffRecordView(c: Checkout, p: Path): Option<Blob> {
    if c.head.Some? then HeadView(c, p) else GitView(c, p)
  }

  /** Every snapshot on record was taken while its file still was as in the beginning, and
      off the record the commit holds what the beginning did. */
  ghost predicate RecordIsOfTheStart(states: seq<Situation>, events: seq<Event>, n: nat)
    requires n <= |events| < |states|
  {
    forall p :: Visible(states[n].c, p) ==> OnRecordOfTheStart(states, events, n, p)
  }

  ghost predicate OnRecordOfTheStart(states: seq<Situation>, events: seq<Event>, n: nat, p: Path)
    requires n <= |events| < |states|
  {
    GitView(states[0].c, p) ==
      if p in states[n].m.files then GitView(states[TakenAt(events, p, n)].c, p) else OffRecordView(states[n].c, p)
  }

  /** A worker `cleanup_safe` accepts holds no change since it started if and only if its
      record is of the start. An edit made before a file's first boundary, or before one
      that follows a release, is taken for the starting state; so is a commit. */
  lemma CleanupSafeIff(states: seq<Situation>, events: seq<Event>, n: nat, cwd: Path)
    requires Trace(states, events) && n <= |events| && IsBaseline(states[0].m, states[0].c, cwd)
    requires Verified(states[n].m, states[n].c) && Changed(states[n].m) == {}
    ensures Unchanged(states[0].c, states[n].c) <==> RecordIsOfTheStart(states, events, n)
  {
    hide IsBaseline, Changed, Verified, GitView, OffRecordView;
    forall p | Visible(states[n].c, p)
      ensures GitView(states[n].c, p) == GitView(states[0].c, p) <==> OnRecordOfTheStart(states, events, n, p)
    {
      SnapshotsAreFirstBoundaries(states, events, p, n, cwd);
      OnePathOnRecord(states, events, p, n);
    }
  }

  lemma OnePathOnRecord(states: seq<Situation>, events: seq<Event>, p: Path, n: nat)
    requires n <= |events| < |states| && SlotTaken(states, events, p, n)
    requires Visible(states[n].c, p) && Verified(states[n].m, states[n].c) && Changed(states[n].m) == {}
    ensures GitView(states[n].c, p) == if p in states[n].m.files then GitView(states[TakenAt(events, p, n)].c, p)
                                       else OffRecordView(states[n].c, p)
  {
    var s := states[n];
    CleanupSafeMeansOnRecord(s.m, s.c, p);
    if p in s.m.files {
      assert PathVerified(s.m, s.c, p);
      TakenView(states[TakenAt(events, p, n)].c, p);
    }
    hide Changed, Verified, Take, GitView, SnapshotView, Dirty, Seen, Stored;
  }

  /** On the commit it started on, with the same files ignored, such a worker holds no
      change if and only if each boundary on record first saw its file as it started, and
      every file that was dirty then is still on record. */
  lemma CleanupSafeOnOneCommitIff(states: seq<Situation>, events: seq<Event>, n: nat, cwd: Path)
    requires Trace(states, events) && n <= |events| && IsBaseline(states[0].m, states[0].c, cwd)
    requires Verified(states[n].m, states[n].c) && Changed(states[n].m) == {}
    requires states[n].c.head.Some? && states[n].c.head == states[0].c.head && states[n].c.ignored == states[0].c.ignored
    ensures Unchanged(states[0].c, states[n].c) <==>
              && Dirty(states[0].c) <= states[n].m.files.Keys
              && forall p :: p in states[n].m.files && Visible(states[n].c, p) ==>
                   GitView(states[TakenAt(events, p, n)].c, p) == GitView(states[0].c, p)
  {
    CleanupSafeIff(states, events, n, cwd);
    var c0, c, files := states[0].c, states[n].c, states[n].m.files;
    hide IsBaseline, Changed, Verified, GitView, HeadView, IsDirty, Trace;
    forall p ensures Visible(c, p) <==> Visible(c0, p) {}
    forall p | Visible(c0, p) ensures GitView(c0, p) == HeadView(c, p) <==> !IsDirty(c0, p) { OffRecordIff(c0, c, p); }
    forall p | IsDirty(c0, p) ensures Visible(c, p) { DirtyIsVisible(c0, p); }
    if RecordIsOfTheStart(states, events, n) {
      forall p | p in Dirty(c0) ensures p in files { assert OnRecordOfTheStart(states, events, n, p); }
      forall p | p in files && Visible(c, p) ensures GitView(states[TakenAt(events, p, n)].c, p) == GitView(c0, p) {
        assert OnRecordOfTheStart(states, events, n, p);
      }
    }
  }

  lemma DirtyIsVisible(c: Checkout, p: Path)
    requires IsDirty(c, p)
    ensures Visible(c, p)
  {
  }

  /** If the commit has not moved, it holds what the beginning did exactly where the
      beginning was clean. */
  lemma OffRecordIff(c0: Checkout, c: Checkout, p: Path)
    requires c.head == c0.head && c.head.Some? && Visible(c0, p)
    ensures GitView(c0, p) == HeadView(c, p) <==> !IsDirty(c0, p)
  {
  }

  /** Outside a repository nothing is dirty: whatever happens off the record, a verified
      worker stays verified. */
  lemma OutsideARepositoryOnlyTheRecordCounts(m: Manifest, c: Checkout, c': Checkout)
    requires c.head.None? && c'.head.None? && forall p :: p in m.files ==> Seen(c, p) == Seen(c', p)
    ensures Verified(m, c) <==> Verified(m, c')
  {
    hide Seen, Stored;
    assert Dirty(c) == {} && Dirty(c') == {};
    forall p | p in m.files ensures PathVerified(m, c, p) <==> PathVerified(m, c', p) {}
  }

  /** So there any edit that was never announced is lost, from any checkout at all. */
  lemma OutsideARepositoryEditIsLost(c0: Checkout, c1: Checkout, cwd: Path)
    requires c0.head.None? && c1.head.None? && !Unchanged(c0, c1)
    ensures exists states: seq<Situation>, events: seq<Event> ::
              && Trace(states, events) && events == [Elsewhere] && states[0].c == c0 && states[1].c == c1
              && LosesAnEdit(states[0], states[1], cwd)
  {
    var m := Manifest(cwd, map[], {}, {}, {}, map[], {});
    assert Dirty(c0) == {} && IsBaseline(m, c0, cwd) && Verified(m, c0) && Changed(m) == {};
    OutsideARepositoryOnlyTheRecordCounts(m, c0, c1);
    var states := [Situation(m, c0), Situation(m, c1)];
    hide IsBaseline, Verified, Changed, Dirty, Unchanged;
    assert Trace(states, [Elsewhere]);
    assert LosesAnEdit(states[0], states[1], cwd);
  }

  lemma TakenView(c: Checkout, p: Path)
    ensures !Take(c, p).Skipped? ==> SnapshotView(Take(c, p)) == GitView(c, p)
  {
  }

  /** The checkout changed between two situations, and cleanup would accept it. */
  ghost predicate LosesAnEdit(start: Situation, end: Situation, cwd: Path) {
    && IsBaseline(start.m, start.c, cwd) && Dirty(start.c) == {}
    && Verified(end.m, end.c) && Changed(end.m) == {} && end.c.head == start.c.head
    && !Unchanged(start.c, end.c)
  }

  /** The shortest such run: somebody edits a committed file outside any boundary, a tool
      announces an edit of it and makes none. The worker differs from its commit, and
      yet may be thrown away. */
  lemma UnannouncedEditIsLost(cwd: Path, edited: Bytes)
    requires edited != [] && |edited| <= MAX_TEXT_FILE_BYTES
    ensures exists states: seq<Situation>, events: seq<Event> ::
              && Trace(states, events) && |events| == 2 && LosesAnEdit(states[0], states[2], cwd)
  {
    var c0, c1 := Committed([]), Committed(edited);
    var m0 := Manifest(cwd, map[], {}, {}, {}, map[], {});
    var m1 := m0.(files := map["a" := Take(c1, "a")], tracked := {"a"}, prepared := {"a"});
    EditChangesTheCheckout(m0, cwd, edited);
    PreparedIsVerified(m0, m1, c1);
    hide IsBaseline, Verified, Changed, Dirty, PrepareAll, Unchanged, Committed;
    var states := [Situation(m0, c0), Situation(m0, c1), Situation(m1, c1)];
    var events := [Elsewhere, Prepare(["a"])];
    assert Trace(states, events);
    assert LosesAnEdit(states[0], states[2], cwd);
  }

  /** So may a worker whose every edit was announced, once the file it edited has been
      kept and the next edit of it is announced: the snapshot taken then has the edit. */
  lemma KeptEditIsLost(cwd: Path, edited: Bytes)
    requires edited != [] && |edited| <= MAX_TEXT_FILE_BYTES
    ensures exists states: seq<Situation>, events: seq<Event> ::
              && events == [Prepare(["a"]), Elsewhere, Capture(["a"]), Drop("a"), Prepare(["a"])]
              && Trace(states, events) && LosesAnEdit(states[0], states[5], cwd)
  {
    var c0, c1 := Committed([]), Committed(edited);
    var m0 := Manifest(cwd, map[], {}, {}, {}, map[], {});
    var m1 := m0.(files := map["a" := Take(c0, "a")], tracked := {"a"}, prepared := {"a"});
    var m2 := m1.(touched := {"a"}, after := map["a" := Take(c1, "a")]);
    var m3 := m0.(files := map["a" := Take(c1, "a")], tracked := {"a"}, prepared := {"a"});
    EditChangesTheCheckout(m0, cwd, edited);
    PreparedIsVerified(m0, m1, c0);
    PreparedIsVerified(m0, m3, c1);
    CapturedThenReleased(m0, m1, m2, c1);
    var start, end := Situation(m0, c0), Situation(m3, c1);
    assert LosesAnEdit(start, end, cwd);
    KeptRun(m0, m1, m2, m3, c0, c1, cwd);
  }

  lemma KeptRun(m0: Manifest, m1: Manifest, m2: Manifest, m3: Manifest, c0: Checkout, c1: Checkout, cwd: Path)
    requires PrepareAll(m0, c0, ["a"]) == m1 && CaptureAll(m1, c1, ["a"]) == m2
    requires Release(m2, "a") == m0 && PrepareAll(m0, c1, ["a"]) == m3
    requires LosesAnEdit(Situation(m0, c0), Situation(m3, c1), cwd)
    ensures exists states: seq<Situation>, events: seq<Event> ::
              && events == [Prepare(["a"]), Elsewhere, Capture(["a"]), Drop("a"), Prepare(["a"])]
              && Trace(states, events) && LosesAnEdit(states[0], states[5], cwd)
  {
    hide PrepareAll, CaptureAll, Release, LosesAnEdit;
    var states := [Situation(m0, c0), Situation(m1, c0), Situation(m1, c1), Situation(m2, c1), Situation(m0, c1),
                   Situation(m3, c1)];
    var events := [Prepare(["a"]), Elsewhere, Capture(["a"]), Drop("a"), Prepare(["a"])];
    assert Trace(states, events);
    assert LosesAnEdit(states[0], states[5], cwd);
  }

  lemma CapturedThenReleased(m0: Manifest, m1: Manifest, m2: Manifest, c: Checkout)
    requires m0 == Manifest(m0.cwd, map[], {}, {}, {}, map[], {}) && InHead(c, "a") && m1.files.Keys == {"a"}
    requires m1 == m0.(files := m1.files, tracked := {"a"}, prepared := {"a"})
    requires m2 == m1.(touched := {"a"}, after := map["a" := Take(c, "a")])
    ensures CaptureAll(m1, c, ["a"]) == m2 && Release(m2, "a") == m0
  {
    assert CaptureOne(m1, c, "a") == m2;
    assert Release(m2, "a") == m0;
  }

  /** And a worker that has committed its edit itself. */
  lemma CommittedEditPasses(cwd: Path, edited: Bytes)
    requires edited != [] && |edited| <= MAX_TEXT_FILE_BYTES
    ensures exists states: seq<Situation>, events: seq<Event> ::
              && Trace(states, events) && events == [Elsewhere]
              && IsBaseline(states[0].m, states[0].c, cwd) && Dirty(states[0].c) == {}
              && Verified(states[1].m, states[1].c) && Changed(states[1].m) == {}
              && states[1].c.head.Some? && !Unchanged(states[0].c, states[1].c)
  {
    var c0 := Committed([]);
    var c1 := Checkout(map["a" := File(edited, 0x1A4)], Some(Commit(1, map["a" := Blob(edited, false)])), {});
    var m0 := Manifest(cwd, map[], {}, {}, {}, map[], {});
    EditChangesTheCheckout(m0, cwd, edited);
    assert Dirty(c1) == {} && Changed(m0) == {} && Verified(m0, c1);
    assert Visible(c1, "a") && GitView(c1, "a") != GitView(c0, "a");
    var states := [Situation(m0, c0), Situation(m0, c1)];
    hide IsBaseline, Verified, Changed, Dirty, Unchanged, Committed;
    assert Trace(states, [Elsewhere]);
    assert states[1].c.head.Some?;
  }

  /** A checkout of a commit with one empty file, holding `bytes` there. */
  function Committed(bytes: Bytes): Checkout {
    Checkout(map["a" := File(bytes, 0x1A4)], Some(Commit(0, map["a" := Blob([], false)])), {})
  }

  lemma EditChangesTheCheckout(m0: Manifest, cwd: Path, edited: Bytes)
    requires m0 == Manifest(cwd, map[], {}, {}, {}, map[], {}) && edited != []
    ensures Dirty(Committed([])) == {} && IsBaseline(m0, Committed([]), cwd)
    ensures !Unchanged(Committed([]), Committed(edited))
  {
    assert Dirty(Committed([])) == {};
    assert Visible(Committed(edited), "a");
    assert GitView(Committed(edited), "a") != GitView(Committed([]), "a");
  }

  lemma PreparedIsVerified(m0: Manifest, m1: Manifest, c: Checkout)
    requires "a" in c.tree && c.head.Some? && c.head.value.tree.Keys == {"a"} && c.tree.Keys == {"a"}
    requires Take(c, "a").Contents? && m0.files == map[] && m0.prepared == {} && m0.touched == {}
    requires m0.tracked == {} && m0.diverged == {}
    requires m1 == m0.(files := map["a" := Take(c, "a")], tracked := {"a"}, prepared := {"a"})
    ensures PrepareAll(m0, c, ["a"]) == m1
    ensures Verified(m1, c) && Changed(m1) == {}
  {
    assert m1 == PrepareOne(m0, c, "a");
    assert PrepareAll(m0, c, ["a"]) == m1;
    assert Dirty(c) <= {"a"};
    assert PathVerified(m1, c, "a");
  }
}
