/** Clients follow a session by deltas: `blockRevisions` and `sync` in `host/store.ts`,
    `applySessionSync` in `src/features/connections/model/protocol.ts`. */
module DeltaSync {
  import opened Wrappers
  import opened HostSessions

  // ---------------------------------------------------------------- stamping

  /** A JavaScript map built from the blocks: the last block of an id wins. */
  function LastWith(blocks: seq<Block>, id: string): (b: Option<Block>)
    ensures b.Some? ==> b.value in blocks && b.value.id == id
    ensures b.None? ==> forall i :: 0 <= i < |blocks| ==> blocks[i].id != id
  {
    if blocks == [] then None
    else if blocks[|blocks| - 1].id == id then Some(blocks[|blocks| - 1])
    else LastWith(blocks[..|blocks| - 1], id)
  }

  function BlocksOf(v: Option<HostSession>): seq<Block> { if v.Some? then v.value.session.blocks else [] }

  function StampOf(v: Option<HostSession>, id: string): Option<int> {
    if v.Some? && v.value.blockRevisions.Some? && id in v.value.blockRevisions.value
    then Some(v.value.blockRevisions.value[id]) else None
  }

  /** A block that was there before, unchanged and stamped, keeps its stamp. */
  function Stamp(previous: Option<HostSession>, block: Block, revision: int): int {
    if LastWith(BlocksOf(previous), block.id) == Some(block) && StampOf(previous, block.id).Some?
    then StampOf(previous, block.id).value else revision
  }

  ghost predicate AreStamps(stamps: map<string, int>, previous: Option<HostSession>, blocks: seq<Block>, revision: int) {
    forall id :: (id in stamps <==> LastWith(blocks, id).Some?)
      && (id in stamps ==> stamps[id] == Stamp(previous, LastWith(blocks, id).value, revision))
  }

  function IdSet(blocks: seq<Block>): set<string> { set b | b in blocks :: b.id }

  function Stamps(previous: Option<HostSession>, blocks: seq<Block>, revision: int): map<string, int> {
    map id | id in IdSet(blocks) && LastWith(blocks, id).Some? :: Stamp(previous, LastWith(blocks, id).value, revision)
  }

  /** There is one way to stamp a value. */
  lemma StampsAreUnique(stamps: map<string, int>, previous: Option<HostSession>, blocks: seq<Block>, revision: int)
    ensures AreStamps(stamps, previous, blocks, revision) <==> stamps == Stamps(previous, blocks, revision)
  {
    hide Stamp, LastWith;
    var m := Stamps(previous, blocks, revision);
    forall id ensures id in m <==> LastWith(blocks, id).Some? {
      SomeLastIsListed(blocks, id);
    }
    if AreStamps(stamps, previous, blocks, revision) {
      assert forall id :: id in stamps <==> id in m;
      assert forall id :: id in stamps ==> stamps[id] == m[id];
      assert stamps == m;
    }
  }

  lemma SomeLastIsListed(blocks: seq<Block>, id: string)
    ensures LastWith(blocks, id).Some? ==> id in IdSet(blocks)
  {
  }

  lemma LastStep(blocks: seq<Block>, i: nat, id: string)
    requires i < |blocks|
    ensures LastWith(blocks[..i + 1], id) == if blocks[i].id == id then Some(blocks[i]) else LastWith(blocks[..i], id)
  {
    assert blocks[..i + 1][..i] == blocks[..i];
  }

  lemma StampsStep(stamps: map<string, int>, previous: Option<HostSession>, blocks: seq<Block>, i: nat, revision: int)
    requires i < |blocks| && AreStamps(stamps, previous, blocks[..i], revision)
    ensures AreStamps(stamps[blocks[i].id := Stamp(previous, blocks[i], revision)], previous, blocks[..i + 1], revision)
  {
    var next := stamps[blocks[i].id := Stamp(previous, blocks[i], revision)];
    hide LastWith, Stamp;
    forall id
      ensures id in next <==> LastWith(blocks[..i + 1], id).Some?
      ensures id in next ==> next[id] == Stamp(previous, LastWith(blocks[..i + 1], id).value, revision)
    {
      LastStep(blocks, i, id);
      if id != blocks[i].id { assert id in next <==> id in stamps; }
    }
  }

  method BlockRevisions(previous: Option<HostSession>, next: HostSession) returns (revisions: map<string, int>)
    ensures AreStamps(revisions, previous, next.session.blocks, next.revision)
  {
    var blocks := next.session.blocks;
    revisions := map[];
    assert AreStamps(revisions, previous, blocks[..0], next.revision);
    hide AreStamps, Stamp;
    for i := 0 to |blocks|
      invariant AreStamps(revisions, previous, blocks[..i], next.revision)
    {
      StampsStep(revisions, previous, blocks, i, next.revision);
      revisions := revisions[blocks[i].id := Stamp(previous, blocks[i], next.revision)];
    }
    assert blocks[..|blocks|] == blocks;
  }

  lemma NoneOfNothing(blocks: seq<Block>, id: string)
    requires blocks == []
    ensures LastWith(blocks, id).None?
  {
  }

  /** A saved value follows another: one revision later, freshly stamped. */
  ghost predicate Follows(previous: Option<HostSession>, next: HostSession) {
    && next.blockRevisions.Some?
    && AreStamps(next.blockRevisions.value, previous, next.session.blocks, next.revision)
    && (previous.Some? ==> next.revision == previous.value.revision + 1 && next.session.id == previous.value.session.id)
  }

  /** Consecutive saves of one session. What came before the first carried no stamps. */
  ghost predicate History(h: seq<HostSession>) {
    && h != [] && h[0].blockRevisions.Some?
    && (forall id :: id in h[0].blockRevisions.value ==> h[0].blockRevisions.value[id] == h[0].revision)
    && (forall id :: id in h[0].blockRevisions.value <==> LastWith(h[0].session.blocks, id).Some?)
    && forall k :: 0 <= k < |h| - 1 ==> Follows(Some(h[k]), h[k + 1])
  }

  lemma FirstSaveIsAHistory(previous: Option<HostSession>, next: HostSession)
    requires Follows(previous, next) && (previous.Some? ==> previous.value.blockRevisions.None?)
    ensures History([next])
  {
  }

  // ------------------------------------------------------------------- delta

  datatype Sync =
    | Unchanged(revision: int)
    | Snapshot(value: HostSession)
    | Delta(base: int, value: HostSession, blockIds: seq<string>, blocks: seq<Block>)

  /** Stamps stay on the host. */
  function Shown(v: HostSession): HostSession { v.(blockRevisions := None) }

  /** A delta carries everything but the blocks. */
  function Rest(v: HostSession): HostSession { Shown(v).(session := v.session.(blocks := [])) }

  function Newer(v: HostSession, blocks: seq<Block>, revision: int): (r: seq<Block>)
    requires v.blockRevisions.Some?
    ensures forall b :: b in r ==> b in blocks
  {
    if blocks == [] then [] else
    var last := blocks[|blocks| - 1];
    var stamp := if last.id in v.blockRevisions.value then v.blockRevisions.value[last.id] else v.revision;
    Newer(v, blocks[..|blocks| - 1], revision) + if stamp > revision then [last] else []
  }

  function SyncOf(v: HostSession, revision: Option<int>): Sync {
    if revision == Some(v.revision) then Unchanged(v.revision)
    else if revision.None? || revision.value > v.revision || v.blockRevisions.None? then Snapshot(Shown(v))
    else Delta(revision.value, Rest(v), Ids(v.session.blocks), Newer(v, v.session.blocks, revision.value))
  }

  datatype SyncError = BaseMismatch | MissingBlock

  /** The client's block table: what it knows, overlaid by the delta. */
  function Lookup(known: seq<Block>, delta: seq<Block>, id: string): Option<Block> {
    if LastWith(delta, id).Some? then LastWith(delta, id) else LastWith(known, id)
  }

  predicate AllFound(known: seq<Block>, delta: seq<Block>, ids: seq<string>) {
    forall i :: 0 <= i < |ids| ==> Lookup(known, delta, ids[i]).Some?
  }

  function Found(known: seq<Block>, delta: seq<Block>, ids: seq<string>): seq<Block>
    requires AllFound(known, delta, ids)
  {
    seq(|ids|, i requires 0 <= i < |ids| => Lookup(known, delta, ids[i]).value)
  }

  function Apply(known: Option<HostSession>, sync: Sync): Result<HostSession, SyncError> {
    match sync
    case Snapshot(value) => Ok(value)
    case Unchanged(revision) =>
      if known.None? || known.value.revision != revision then Err(BaseMismatch) else Ok(known.value)
    case Delta(base, value, ids, blocks) =>
      if known.None? || known.value.revision != base then Err(BaseMismatch)
      else if !AllFound(known.value.session.blocks, blocks, ids) then Err(MissingBlock)
      else Ok(value.(session := value.session.(blocks := Found(known.value.session.blocks, blocks, ids))))
  }

  /** The client's side, with its block table. */
  method ApplySessionSync(known: Option<HostSession>, sync: Sync) returns (r: Result<HostSession, SyncError>)
    ensures r == Apply(known, sync)
  {
    hide LastWith;
    if sync.Snapshot? {
      return Ok(sync.value);
    }
    if known.None? || known.value.revision != (if sync.Delta? then sync.base else sync.revision) {
      return Err(BaseMismatch);
    }
    if sync.Unchanged? {
      return Ok(known.value);
    }
    var held := known.value.session.blocks;
    var table := Table(held, sync.blocks);
    var blocks := [];
    for i := 0 to |sync.blockIds|
      invariant |blocks| == i
      invariant forall j :: 0 <= j < i ==> Lookup(held, sync.blocks, sync.blockIds[j]) == Some(blocks[j])
    {
      var id := sync.blockIds[i];
      if id !in table {
        assert Lookup(held, sync.blocks, sync.blockIds[i]).None?;
        return Err(MissingBlock);
      }
      blocks := blocks + [table[id]];
    }
    assert blocks == Found(held, sync.blocks, sync.blockIds);
    r := Ok(sync.value.(session := sync.value.session.(blocks := blocks)));
  }

  method Table(known: seq<Block>, delta: seq<Block>) returns (table: map<string, Block>)
    ensures forall id :: Lookup(known, delta, id) == if id in table then Some(table[id]) else None
  {
    table := AddAll(map[], known, []);
    table := AddAll(table, delta, known);
  }

  method AddAll(start: map<string, Block>, blocks: seq<Block>, ghost known: seq<Block>) returns (table: map<string, Block>)
    requires forall id :: LastWith(known, id) == if id in start then Some(start[id]) else None
    ensures forall id :: Lookup(known, blocks, id) == if id in table then Some(table[id]) else None
    ensures known == [] ==> forall id :: LastWith(blocks, id) == if id in table then Some(table[id]) else None
  {
    hide LastWith;
    table := start;
    forall id ensures LastWith(blocks[..0], id).None? { NoneOfNothing(blocks[..0], id); }
    for i := 0 to |blocks|
      invariant forall id :: Lookup(known, blocks[..i], id) == if id in table then Some(table[id]) else None
    {
      forall id ensures LastWith(blocks[..i + 1], id) == if blocks[i].id == id then Some(blocks[i]) else LastWith(blocks[..i], id) {
        LastStep(blocks, i, id);
      }
      table := table[blocks[i].id := blocks[i]];
    }
    assert blocks[..|blocks|] == blocks;
    if known == [] {
      forall id ensures LastWith(known, id).None? { NoneOfNothing(known, id); }
    }
  }

  // ---------------------------------------------------------------- theorems

  /** A stamp is the revision since which the block has not changed. */
  ghost predicate StampsAreSound(h: seq<HostSession>, k: nat)
    requires k < |h| && History(h)
  {
    && h[k].blockRevisions.Some? && h[k].revision == h[0].revision + k
    && forall id :: LastWith(h[k].session.blocks, id).Some? ==> StampIsSound(h, k, id)
  }

  ghost predicate StampIsSound(h: seq<HostSession>, k: nat, id: string)
    requires k < |h| && History(h)
  {
    var stamp := StampOf(Some(h[k]), id);
    && stamp.Some? && h[0].revision <= stamp.value <= h[k].revision
    && forall j :: 0 <= j <= k && stamp.value <= h[0].revision + j ==>
         LastWith(h[j].session.blocks, id) == LastWith(h[k].session.blocks, id)
  }

  lemma StampStep(h: seq<HostSession>, k: nat, id: string)
    requires History(h) && k + 1 < |h| && StampsAreSound(h, k)
    requires LastWith(h[k + 1].session.blocks, id).Some?
    ensures StampIsSound(h, k + 1, id)
  {
    hide LastWith;
    assert Follows(Some(h[k]), h[k + 1]);
    var block := LastWith(h[k + 1].session.blocks, id).value;
    if LastWith(h[k].session.blocks, id) == Some(block) {
      assert StampIsSound(h, k, id);
    }
  }

  lemma {:induction false} StampsSinceFirstSave(h: seq<HostSession>, k: nat)
    requires History(h) && k < |h|
    ensures StampsAreSound(h, k)
    decreases k
  {
    hide LastWith, Stamp;
    if k > 0 {
      StampsSinceFirstSave(h, k - 1);
      assert Follows(Some(h[k - 1]), h[k]);
      forall id | LastWith(h[k].session.blocks, id).Some? ensures StampIsSound(h, k, id) {
        StampStep(h, k - 1, id);
      }
    }
  }

  /** A block is in the delta exactly when its stamp is newer. */
  lemma {:induction false} NewerHas(v: HostSession, blocks: seq<Block>, revision: int, id: string)
    requires v.blockRevisions.Some?
    ensures LastWith(Newer(v, blocks, revision), id)
            == if (if id in v.blockRevisions.value then v.blockRevisions.value[id] else v.revision) > revision
               then LastWith(blocks, id) else None
    decreases |blocks|
  {
    if blocks != [] {
      var n := |blocks| - 1;
      NewerHas(v, blocks[..n], revision, id);
      var earlier := Newer(v, blocks[..n], revision);
      assert (earlier + [blocks[n]])[..|earlier|] == earlier;
      assert earlier + [] == earlier;
    }
  }

  /** What a client that once held a revision may still hold: the snapshot of that
      revision, or, for a revision before the first stamped save, anything. */
  ghost predicate Holds(h: seq<HostSession>, known: HostSession)
    requires History(h)
  {
    h[0].revision <= known.revision ==>
      known.revision - h[0].revision < |h| && known == Shown(h[known.revision - h[0].revision])
  }

  /** The session that results when every id shows its last block. */
  function ByLast(v: HostSession): HostSession {
    Shown(v).(session := v.session.(blocks := seq(|v.session.blocks|, i requires 0 <= i < |v.session.blocks| =>
      var b := LastWith(v.session.blocks, v.session.blocks[i].id);
      if b.Some? then b.value else v.session.blocks[i])))
  }

  /** Blocks that share an id are equal. */
  predicate IdsDecide(blocks: seq<Block>) {
    forall i, j :: 0 <= i < |blocks| && 0 <= j < |blocks| && blocks[i].id == blocks[j].id ==> blocks[i] == blocks[j]
  }

  lemma LastIsFound(blocks: seq<Block>, i: nat)
    requires i < |blocks|
    ensures LastWith(blocks, blocks[i].id).Some?
  {
  }

  lemma ByLastIff(v: HostSession)
    ensures ByLast(v) == Shown(v) <==> IdsDecide(v.session.blocks)
  {
    var blocks := v.session.blocks;
    if ByLast(v) == Shown(v) {
      assert ByLast(v).session.blocks == blocks;
      forall i, j | 0 <= i < |blocks| && 0 <= j < |blocks| && blocks[i].id == blocks[j].id
        ensures blocks[i] == blocks[j]
      {
        LastIsFound(blocks, i);
        LastIsFound(blocks, j);
        assert ByLast(v).session.blocks[i] == blocks[i] && ByLast(v).session.blocks[j] == blocks[j];
      }
    }
    if IdsDecide(blocks) {
      forall i | 0 <= i < |blocks| ensures ByLast(v).session.blocks[i] == blocks[i] {
        var b := LastWith(blocks, blocks[i].id);
        if b.Some? {
          var j :| 0 <= j < |blocks| && blocks[j] == b.value;
        }
      }
      assert ByLast(v).session.blocks == blocks;
    }
  }

  lemma LookupIsLast(h: seq<HostSession>, k: nat, known: HostSession, id: string)
    requires History(h) && k < |h| && Holds(h, known) && known.revision < h[k].revision
    requires LastWith(h[k].session.blocks, id).Some?
    ensures h[k].blockRevisions.Some?
    ensures Lookup(known.session.blocks, Newer(h[k], h[k].session.blocks, known.revision), id)
            == LastWith(h[k].session.blocks, id)
  {
    StampsSinceFirstSave(h, k);
    NewerHas(h[k], h[k].session.blocks, known.revision, id);
    hide LastWith, Newer;
    assert StampIsSound(h, k, id);
    var stamp := StampOf(Some(h[k]), id).value;
    if stamp <= known.revision {
      var j := known.revision - h[0].revision;
      assert LastWith(h[j].session.blocks, id) == LastWith(h[k].session.blocks, id);
    }
  }

  /** A client that holds any earlier revision and applies the delta for it gets the
      current session, with every id showing its last block. */
  lemma DeltaRebuilds(h: seq<HostSession>, k: nat, known: HostSession)
    requires History(h) && k < |h| && Holds(h, known) && known.revision < h[k].revision
    ensures SyncOf(h[k], Some(known.revision)).Delta?
    ensures Apply(Some(known), SyncOf(h[k], Some(known.revision))) == Ok(ByLast(h[k]))
  {
    StampsSinceFirstSave(h, k);
    var v := h[k];
    var blocks, delta := v.session.blocks, Newer(v, v.session.blocks, known.revision);
    hide LastWith, Newer, History, Holds;
    forall i | 0 <= i < |blocks|
      ensures Lookup(known.session.blocks, delta, blocks[i].id) == LastWith(blocks, blocks[i].id)
      ensures LastWith(blocks, blocks[i].id).Some?
    {
      LastIsFound(blocks, i);
      LookupIsLast(h, k, known, blocks[i].id);
    }
    assert AllFound(known.session.blocks, delta, Ids(blocks));
    assert Found(known.session.blocks, delta, Ids(blocks)) == ByLast(v).session.blocks;
  }

  /** One answer from any state the client can be in, also one ahead of the host. It is
      the current snapshot, for a delta if and only if ids decide the blocks. */
  lemma SyncConvergesIff(h: seq<HostSession>, k: nat, known: Option<HostSession>)
    requires History(h) && k < |h| && (known.Some? ==> Holds(h, known.value))
    ensures var sync := SyncOf(h[k], if known.Some? then Some(known.value.revision) else None);
            && Apply(known, sync).Ok?
            && (Apply(known, sync) == Ok(Shown(h[k])) <==> !sync.Delta? || IdsDecide(h[k].session.blocks))
  {
    StampsSinceFirstSave(h, k);
    ByLastIff(h[k]);
    hide LastWith, Newer, ByLast, IdsDecide;
    if known.Some? && known.value.revision < h[k].revision {
      DeltaRebuilds(h, k, known.value);
    }
  }

  /** A client that syncs at revisions `at`, each time from what it then holds. */
  function Client(h: seq<HostSession>, at: seq<nat>): Result<HostSession, SyncError>
    requires at != [] && forall i :: 0 <= i < |at| ==> at[i] < |h|
    decreases |at|
  {
    var v := h[at[|at| - 1]];
    if |at| == 1 then Apply(None, SyncOf(v, None))
    else
      match Client(h, at[..|at| - 1])
      case Ok(known) => Apply(Some(known), SyncOf(v, Some(known.revision)))
      case Err(e) => Err(e)
  }

  /** Any chain of syncs ends with the snapshot it last asked for. */
  lemma {:induction false} ChainConverges(h: seq<HostSession>, at: seq<nat>)
    requires History(h) && at != [] && forall i :: 0 <= i < |at| ==> at[i] < |h|
    requires forall k :: 0 <= k < |h| ==> IdsDecide(h[k].session.blocks)
    ensures Client(h, at) == Ok(Shown(h[at[|at| - 1]]))
    decreases |at|
  {
    hide History, IdsDecide, SyncOf, Apply;
    var k := at[|at| - 1];
    if |at| == 1 {
      SyncConvergesIff(h, k, None);
    } else {
      ChainConverges(h, at[..|at| - 1]);
      HoldsShown(h, at[|at| - 2]);
      SyncConvergesIff(h, k, Some(Shown(h[at[|at| - 2]])));
    }
  }

  lemma HoldsShown(h: seq<HostSession>, k: nat)
    requires History(h) && k < |h|
    ensures Holds(h, Shown(h[k]))
  {
    StampsSinceFirstSave(h, k);
  }

  /** A client may choose an id that a block already has. Then the delta shows the newer
      block in both places, where a snapshot shows both. */
  lemma ReusedIdBreaksDeltas(v: HostSession, first: Block, second: Block)
    requires v.session.blocks == [first] && v.blockRevisions == Some(map[first.id := v.revision])
    requires second.id == first.id && second != first
    ensures var next := v.(revision := v.revision + 1, session := v.session.(blocks := [first, second]),
                           blockRevisions := Some(map[first.id := v.revision + 1]));
            && History([v, next])
            && Apply(Some(Shown(v)), SyncOf(next, Some(v.revision)))
               == Ok(Shown(next).(session := next.session.(blocks := [second, second])))
  {
    var next := v.(revision := v.revision + 1, session := v.session.(blocks := [first, second]),
                   blockRevisions := Some(map[first.id := v.revision + 1]));
    assert [first, second][..1] == [first];
    assert Follows(Some(v), next);
    assert History([v, next]);
    HoldsShown([v, next], 0);
    DeltaRebuilds([v, next], 1, Shown(v));
    assert ByLast(next).session.blocks == [second, second];
  }
}
