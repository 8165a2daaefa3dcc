/** `host/store.ts`: session snapshots, their summaries, a trimmed log of every save and
    the receipts of commands, behind a small cache. */
module HostStores {
  import opened Wrappers
  import opened HostSessions
  import opened DeltaSync

  const CACHED_SESSIONS: nat := 32
  const LOGGED_REVISIONS: nat := 2_000

  /** `providerSessionId` may be absent, null or a name. */
  datatype Summary = Summary(
    projectId: string, revision: int, runId: Option<string>, status: Status, updatedAt: Time, id: string,
    cwd: string, title: string, harness: string, model: string, runtimeMode: string,
    providerSessionId: Option<Option<string>>, createdAt: Time, archived: bool, pinned: bool,
    linkedWorkItem: Option<string>, needsInput: Option<bool>, draft: bool)

  predicate IsUserDraft(b: Block) { b.role == User && b.draft }

  function SummaryOf(v: HostSession): Summary {
    Summary(v.projectId, v.revision, v.runId, v.status, v.updatedAt, v.session.id, v.session.cwd,
            v.session.title, v.session.harness, v.session.model, v.session.runtimeMode,
            Some(v.session.providerSessionId), if v.createdAt.Some? then v.createdAt.value else v.updatedAt,
            v.archived, v.pinned, v.session.linkedWorkItem, Some(NeedsInput(v.session)),
            exists i :: 0 <= i < |v.session.blocks| && IsUserDraft(v.session.blocks[i]))
  }

  /** The row holds a summary of a version that stored all these fields. */
  predicate Usable(s: Summary) { s.model != "" && s.needsInput.Some? && s.providerSessionId.Some? }

  datatype Entry = Entry(signature: Command, receipt: Receipt)

  datatype Tables = Tables(
    sessions: map<string, HostSession>, log: map<string, map<int, Record>>, receipts: map<string, Entry>)

  function LogOf(t: Tables, id: string): map<int, Record> { if id in t.log then t.log[id] else map[] }

  function RowOf(t: Tables, id: string): Option<HostSession> {
    if id in t.sessions then Some(t.sessions[id]) else None
  }

  /** A value as it is written: stamped against the row it replaces. */
  function Stamped(previous: Option<HostSession>, input: HostSession): HostSession {
    input.(
      createdAt := if input.createdAt.Some? then input.createdAt
                   else if previous.Some? && previous.value.createdAt.Some? then previous.value.createdAt
                   else if previous.Some? then Some(previous.value.updatedAt)
                   else Some(input.updatedAt),
      blockRevisions := Some(Stamps(previous, input.session.blocks, input.revision)))
  }

  function Logged(log: map<int, Record>, revision: int, record: Record): map<int, Record> {
    map r | r in log.Keys + {revision} && r >= revision - LOGGED_REVISIONS :: if r == revision then record else log[r]
  }

  function Saved(t: Tables, input: HostSession, record: Record): Tables {
    var value := Stamped(RowOf(t, input.session.id), input);
    t.(sessions := t.sessions[input.session.id := value],
       log := t.log[input.session.id := Logged(LogOf(t, input.session.id), value.revision, record)])
  }

  predicate IsBlank(s: string) { forall c :: c in s ==> c in {' ', '\t', '\n', '\r'} }

  function TrimStart(s: string): string {
    if s != "" && s[0] in {' ', '\t', '\n', '\r'} then TrimStart(s[1..]) else s
  }

  function Trim(s: string): string { Reverse(TrimStart(Reverse(TrimStart(s)))) }

  function Reverse(s: string): string { seq(|s|, i requires 0 <= i < |s| => s[|s| - 1 - i]) }

  predicate ValidPatch(p: Patch) {
    p.title.Some? ==> !IsBlank(p.title.value) && |p.title.value| <= 200
  }

  function Patched(v: HostSession, p: Patch): HostSession {
    v.(revision := v.revision + 1,
       archived := if p.archived.Some? then p.archived.value else v.archived,
       pinned := if p.pinned.Some? then p.pinned.value else v.pinned,
       session := v.session.(
         title := if p.title.Some? then Trim(p.title.value) else v.session.title,
         linkedWorkItem := if p.linkedWorkItem.Some? then p.linkedWorkItem.value else v.session.linkedWorkItem))
  }

  function Deleted(t: Tables, id: string): Tables {
    t.(sessions := t.sessions - {id}, log := t.log - {id})
  }

  // --------------------------------------------------------------- event log

  /** The log of a session is the last saves, without a gap. */
  ghost predicate GapFree(log: map<int, Record>, revision: int) {
    forall r :: r in log <==> (if revision - LOGGED_REVISIONS < 1 then 1 else revision - LOGGED_REVISIONS) <= r <= revision
  }

  /** Every save leaves the log without a gap. */
  lemma SaveKeepsGapFree(log: map<int, Record>, revision: int, record: Record)
    requires revision >= 0 && (revision == 0 ==> log == map[]) && (revision > 0 ==> GapFree(log, revision))
    ensures GapFree(Logged(log, revision + 1, record), revision + 1)
  {
  }

  datatype Replay =
    | Whole(snapshot: HostSession)
    | Since(events: seq<(int, Record)>, revision: int)

  /** The records after a revision, in order. */
  function Range(log: map<int, Record>, after: int, revision: int): (r: seq<(int, Record)>)
    requires forall k :: after < k <= revision ==> k in log
    ensures |r| == (if revision > after then revision - after else 0)
    ensures forall i :: 0 <= i < |r| ==> r[i] == (after + 1 + i, log[after + 1 + i])
    decreases revision - after
  {
    if revision <= after then [] else Range(log, after, revision - 1) + [(revision, log[revision])]
  }

  /** The first revision a cursor may stand at to be answered with records. */
  function OldestCursor(revision: int): int {
    if revision - LOGGED_REVISIONS < 1 then 0 else revision - LOGGED_REVISIONS - 1
  }

  /** The answer to a cursor, given the records after it. */
  method ReplayOf(snapshot: HostSession, log: map<int, Record>, rows: seq<int>, after: int) returns (r: Replay)
    requires snapshot.revision >= 1 && GapFree(log, snapshot.revision)
    requires InOrder(rows) && forall k :: k in rows <==> k in log && k > after
    ensures r.Since? <==> OldestCursor(snapshot.revision) <= after <= snapshot.revision
    ensures r.Whole? ==> r.snapshot == snapshot
    ensures r.Since? ==> (forall k :: after < k <= snapshot.revision ==> k in log)
                         && r == Since(Range(log, after, snapshot.revision), snapshot.revision)
  {
    var revision := snapshot.revision;
    AscendingRange(rows, if after < OldestCursor(revision) then OldestCursor(revision) + 1 else after + 1, revision);
    if after > revision || (after < revision && (rows == [] || rows[0] != after + 1)) {
      return Whole(snapshot);
    }
    var events := [];
    for i := 0 to |rows|
      invariant |events| == i && forall j :: 0 <= j < i ==> events[j] == (rows[j], log[rows[j]])
    {
      events := events + [(rows[i], log[rows[i]])];
    }
    r := Since(events, revision);
    assert events == Range(log, after, revision);
  }

  predicate InOrder(rows: seq<int>) { forall i, j :: 0 <= i < j < |rows| ==> rows[i] < rows[j] }

  /** Ascending revisions that are all revisions of a range count up through it. */
  lemma {:induction false} AscendingRange(rows: seq<int>, from: int, to: int)
    requires InOrder(rows) && forall k :: k in rows <==> from <= k <= to
    ensures |rows| == (if to >= from then to - from + 1 else 0)
    ensures forall i :: 0 <= i < |rows| ==> rows[i] == from + i
    decreases |rows|
  {
    if rows == [] {
      assert from in rows <==> from <= from <= to;
    } else {
      var n := |rows| - 1;
      assert rows[n] in rows && to in rows;
      var j :| 0 <= j < |rows| && rows[j] == to;
      assert rows[n] == to;
      forall k ensures k in rows[..n] <==> from <= k <= to - 1 {
        if k in rows[..n] {
          var i :| 0 <= i < n && rows[..n][i] == k;
          assert rows[i] in rows && rows[i] < rows[n];
        }
        if from <= k <= to - 1 {
          assert k in rows;
          var i :| 0 <= i < |rows| && rows[i] == k;
          assert rows[..n][i] == k;
        }
      }
      AscendingRange(rows[..n], from, to - 1);
    }
  }

  // ------------------------------------------------------------------- cache

  predicate Fresh(order: seq<string>) { forall i, j :: 0 <= i < j < |order| ==> order[i] != order[j] }

  function Without(order: seq<string>, id: string): (r: seq<string>)
    ensures forall x :: x in r <==> x in order && x != id
    ensures |r| <= |order| && (id !in order ==> r == order)
  {
    if order == [] then []
    else if order[0] == id then Without(order[1..], id)
    else [order[0]] + Without(order[1..], id)
  }

  lemma FreshStep(x: string, rest: seq<string>)
    requires Fresh(rest) && x !in rest
    ensures Fresh([x] + rest)
  {
  }

  lemma FreshEnd(rest: seq<string>, x: string)
    requires Fresh(rest) && x !in rest
    ensures Fresh(rest + [x])
  {
  }

  lemma {:induction false} WithoutIsFresh(order: seq<string>, id: string)
    requires Fresh(order)
    ensures Fresh(Without(order, id))
    decreases |order|
  {
    if order != [] {
      WithoutIsFresh(order[1..], id);
      assert order[0] !in order[1..];
      if order[0] != id { FreshStep(order[0], Without(order[1..], id)); }
    }
  }

  lemma FreshTail(order: seq<string>)
    requires Fresh(order) && order != []
    ensures Fresh(order[1..]) && order[0] !in order[1..]
  {
  }

  /** Values and the order of their last use, oldest first. */
  datatype Cache = Cache(values: map<string, HostSession>, order: seq<string>)

  ghost predicate WellOrdered(c: Cache) {
    Fresh(c.order) && |c.order| <= CACHED_SESSIONS && forall id :: id in c.order <==> id in c.values
  }

  ghost predicate Faithful(c: Cache, sessions: map<string, HostSession>) {
    WellOrdered(c) && forall id :: id in c.values ==> id in sessions && c.values[id] == sessions[id]
  }

  /** The cache without what was remembered of a session. */
  function Dropped(c: Cache, id: string): Cache { Cache(c.values - {id}, Without(c.order, id)) }

  /** The cache after an access: the value newest, the oldest gone if there are too many. */
  function Used(c: Cache, id: string, value: HostSession): Cache {
    var order := Without(c.order, id) + [id];
    var values := c.values[id := value];
    if |order| > CACHED_SESSIONS then Cache(values - {order[0]}, order[1..]) else Cache(values, order)
  }

  lemma DroppedIsFaithful(c: Cache, sessions: map<string, HostSession>, id: string)
    requires WellOrdered(c)
    requires forall x :: x in c.values && x != id ==> x in sessions && c.values[x] == sessions[x]
    ensures Faithful(Dropped(c, id), sessions)
  {
    WithoutIsFresh(c.order, id);
  }

  lemma UsedOrder(c: Cache, id: string, value: HostSession)
    requires WellOrdered(c)
    ensures var next := Used(c, id, value);
            && WellOrdered(next) && id in next.values && next.values[id] == value
            && next.order != [] && next.order[|next.order| - 1] == id
  {
    WithoutIsFresh(c.order, id);
    var order, values := Without(c.order, id) + [id], c.values[id := value];
    FreshEnd(Without(c.order, id), id);
    assert forall x :: x in order <==> x in Without(c.order, id) || x == id;
    hide Without, Fresh;
    if |order| > CACHED_SESSIONS {
      FreshTail(order);
      OldestGone(order, values);
      assert order[|order| - 1] == id;
    } else {
      WithoutShorter(c.order, id);
    }
  }

  lemma {:induction false} WithoutShorter(order: seq<string>, id: string)
    ensures id in order ==> |Without(order, id)| < |order|
    decreases |order|
  {
    if order != [] { WithoutShorter(order[1..], id); }
  }

  lemma OldestGone(order: seq<string>, values: map<string, HostSession>)
    requires Fresh(order) && |order| > 1 && forall x :: x in order <==> x in values
    ensures forall x :: x in order[1..] <==> x in values - {order[0]}
    ensures order[|order| - 1] != order[0] && order[|order| - 1] in values - {order[0]}
  {
    FreshTail(order);
    assert order == [order[0]] + order[1..];
    assert order[|order| - 1] in order;
  }

  /** The cache stays faithful and small, and the value just used stays in it. */
  lemma UsedIsFaithful(c: Cache, sessions: map<string, HostSession>, id: string)
    requires WellOrdered(c) && id in sessions
    requires forall x :: x in c.values && x != id ==> x in sessions && c.values[x] == sessions[x]
    ensures var next := Used(c, id, sessions[id]);
            && Faithful(next, sessions) && id in next.values
            && next.order != [] && next.order[|next.order| - 1] == id
  {
    hide Without, WellOrdered;
    UsedOrder(c, id, sessions[id]);
  }

  method Use(c: Cache, id: string, value: HostSession) returns (next: Cache)
    ensures next == Used(c, id, value)
  {
    hide Without;
    var values, order := c.values - {id}, Without(c.order, id);
    values, order := values[id := value], order + [id];
    assert values == c.values[id := value];
    if |order| > CACHED_SESSIONS {
      values, order := values - {order[0]}, order[1..];
    }
    next := Cache(values, order);
  }

  // ------------------------------------------------------------------- store

  class HostStore {
    var sessions: map<string, HostSession>
    var summaries: map<string, Summary>
    var log: map<string, map<int, Record>>
    var receipts: map<string, Entry>

    /** The rows at the beginning of the open transaction. */
    var undo: Option<(Tables, map<string, Summary>)>

    var cache: Cache

    ghost function Contents(): Tables
      reads this
    {
      Tables(sessions, log, receipts)
    }

    ghost predicate Valid()
      reads this
    {
      && Faithful(cache, sessions)
      && SummariesAgree(sessions, summaries)
      && (undo.Some? ==> SummariesAgree(undo.value.0.sessions, undo.value.1) && KeyedById(undo.value.0.sessions))
      && KeyedById(sessions)
    }

    constructor (sessions: map<string, HostSession>, summaries: map<string, Summary>,
                 log: map<string, map<int, Record>>, receipts: map<string, Entry>)
      requires SummariesAgree(sessions, summaries)
      requires KeyedById(sessions)
      ensures Valid() && undo.None? && Contents() == Tables(sessions, log, receipts)
    {
      this.sessions, this.summaries, this.log, this.receipts := sessions, summaries, log, receipts;
      undo, cache := None, Cache(map[], []);
    }

    method Remember(value: HostSession)
      requires WellOrdered(cache) && value.session.id in sessions && sessions[value.session.id] == value
      requires forall id :: id in cache.values && id != value.session.id ==>
                 id in sessions && cache.values[id] == sessions[id]
      modifies this`cache
      ensures Faithful(cache, sessions) && cache == Used(old(cache), value.session.id, value)
      ensures value.session.id in cache.values
    {
      var id := value.session.id;
      UsedIsFaithful(cache, sessions, id);
      hide Faithful, WellOrdered, Used;
      cache := Use(cache, id, value);
    }

    method Find(id: string) returns (r: Option<HostSession>)
      requires Valid()
      modifies this`cache
      ensures Valid() && r == RowOf(Contents(), id)
    {
      if id in cache.values {
        r := Some(cache.values[id]);
        Remember(cache.values[id]);
      } else if id in sessions {
        r := Some(sessions[id]);
        Remember(sessions[id]);
      } else {
        r := None;
      }
    }

    method Begin()
      requires Valid() && undo.None?
      modifies this`undo
      ensures Valid() && undo == Some((Contents(), summaries))
    {
      undo := Some((Tables(sessions, log, receipts), summaries));
    }

    /** The cache may hold values of the transaction, so it is emptied. */
    method Rollback()
      requires Valid() && undo.Some?
      modifies this
      ensures Valid() && undo.None? && Contents() == old(undo).value.0 && summaries == old(undo).value.1
      ensures cache == Cache(map[], [])
    {
      cache := Cache(map[], []);
      sessions, log, receipts := undo.value.0.sessions, undo.value.0.log, undo.value.0.receipts;
      summaries := undo.value.1;
      undo := None;
    }

    method Commit(fails: bool) returns (ok: bool)
      requires Valid() && undo.Some?
      modifies this
      ensures Valid() && undo.None? && ok == !fails
      ensures Contents() == if ok then old(Contents()) else old(undo).value.0
      ensures summaries == if ok then old(summaries) else old(undo).value.1
    {
      if fails {
        Rollback();
        return false;
      }
      undo := None;
      ok := true;
    }

    method Save(input: HostSession, record: Record) returns (value: HostSession)
      requires Valid()
      modifies this`sessions, this`summaries, this`log, this`cache
      ensures Valid() && Contents() == Saved(old(Contents()), input, record)
      ensures value == sessions[input.session.id] == Stamped(RowOf(old(Contents()), input.session.id), input)
      ensures summaries == old(summaries)[input.session.id := SummaryOf(value)]
    {
      var id := input.session.id;
      var previous := Find(id);
      value := Stamp(previous, input);
      assert value.session.id == id && value.revision == input.revision;
      hide Stamped, Logged;
      var rows := LogRecord(if id in log then log[id] else map[], value.revision, record);
      Write(value, rows);
    }

    method Write(value: HostSession, rows: map<int, Record>)
      requires Valid()
      modifies this`sessions, this`summaries, this`log, this`cache
      ensures Valid()
      ensures sessions == old(sessions)[value.session.id := value] && log == old(log)[value.session.id := rows]
      ensures summaries == old(summaries)[value.session.id := SummaryOf(value)]
    {
      var id := value.session.id;
      hide SummaryOf, Faithful, WellOrdered, SummariesAgree, KeyedById, Used;
      WrittenSummaryAgrees(sessions, summaries, value);
      StaleOnlyThere(cache, sessions, id);
      sessions, summaries := sessions[id := value], summaries[id := SummaryOf(value)];
      log := log[id := rows];
      Remember(value);
    }

    static method Stamp(previous: Option<HostSession>, input: HostSession) returns (value: HostSession)
      ensures value == Stamped(previous, input)
    {
      var createdAt := input.createdAt;
      if createdAt.None? && previous.Some? {
        createdAt := if previous.value.createdAt.Some? then previous.value.createdAt else Some(previous.value.updatedAt);
      }
      if createdAt.None? {
        createdAt := Some(input.updatedAt);
      }
      var revisions := BlockRevisions(previous, input);
      StampsAreUnique(revisions, previous, input.session.blocks, input.revision);
      value := input.(createdAt := createdAt, blockRevisions := Some(revisions));
    }

    static method LogRecord(rows: map<int, Record>, revision: int, record: Record) returns (next: map<int, Record>)
      ensures next == Logged(rows, revision, record)
    {
      next := rows[revision := record];
      next := map r | r in next && r >= revision - LOGGED_REVISIONS :: next[r];
    }

    method UpdateSession(id: string, patch: Patch, fails: bool) returns (r: Option<Summary>)
      requires Valid() && undo.None?
      modifies this
      ensures Valid() && undo.None?
      ensures r.Some? <==> id in old(sessions) && ValidPatch(patch) && !fails
      ensures r.None? ==> Contents() == old(Contents())
      ensures r.Some? ==>
                && Contents() == Saved(old(Contents()), Patched(old(sessions)[id], patch), Metadata(patch))
                && r.value == SummaryOf(sessions[id])
    {
      Begin();
      var current := Find(id);
      if current.None? || !ValidPatch(patch) {
        Rollback();
        return None;
      }
      var next := Save(Patched(current.value, patch), Metadata(patch));
      var ok := Commit(fails);
      r := if ok then Some(SummaryOf(next)) else None;
    }

    /** Every stored session, in some order. */
    method Sessions() returns (values: seq<HostSession>)
      requires Valid()
      ensures Lists(values, sessions, sessions.Keys)
    {
      hide Faithful, SummariesAgree, Lists;
      values := [];
      var rest := sessions.Keys;
      ListsNothing(sessions);
      while rest != {}
        invariant rest <= sessions.Keys && Lists(values, sessions, sessions.Keys - rest)
        decreases |rest|
      {
        var id :| id in rest;
        ListsOneMore(values, sessions, sessions.Keys - rest, id);
        assert sessions.Keys - rest + {id} == sessions.Keys - (rest - {id});
        values := values + [sessions[id]];
        rest := rest - {id};
      }
      assert sessions.Keys - rest == sessions.Keys;
    }

    method DeleteSession(id: string, fails: bool) returns (ok: bool)
      requires Valid() && undo.None?
      modifies this
      ensures Valid() && undo.None?
      ensures ok <==> id in old(sessions) && old(sessions)[id].status != Running && !fails
      ensures Contents() == if ok then Deleted(old(Contents()), id) else old(Contents())
    {
      Begin();
      var current := Find(id);
      if current.None? || current.value.status == Running {
        Rollback();
        return false;
      }
      hide Faithful, SummariesAgree, KeyedById;
      Remove(id);
      ok := Commit(fails);
    }

    method Remove(id: string)
      requires Valid()
      modifies this`sessions, this`summaries, this`log, this`cache
      ensures Valid() && Contents() == Deleted(old(Contents()), id)
    {
      hide Without, SummaryOf, Fresh, SummariesAgree, KeyedById;
      DroppedIsFaithful(cache, sessions - {id}, id);
      hide Faithful, WellOrdered, Dropped;
      DeletedSummariesAgree(sessions, summaries, id);
      log := log - {id};
      sessions, summaries := sessions - {id}, summaries - {id};
      cache := Dropped(cache, id);
    }

    method FindReceipt(id: string, signature: Command) returns (r: Result<Option<Receipt>, ()>)
      ensures r == if id !in receipts then Ok(None)
                   else if receipts[id].signature != signature then Err(()) else Ok(Some(receipts[id].receipt))
    {
      if id !in receipts {
        return Ok(None);
      }
      if receipts[id].signature != signature {
        return Err(());
      }
      r := Ok(Some(receipts[id].receipt));
    }

    method RecordReceipt(signature: Command, receipt: Receipt)
      requires Valid() && receipt.commandId !in receipts
      modifies this`receipts
      ensures Valid() && receipts == old(receipts)[receipt.commandId := Entry(signature, receipt)]
    {
      receipts := receipts[receipt.commandId := Entry(signature, receipt)];
    }

    /** Summaries of a project, each session once, the last updated first. */
    method Summaries(projectId: string) returns (list: seq<Summary>)
      requires Valid()
      modifies this`summaries, this`cache
      ensures Valid() && LastUpdatedFirst(list) && Distinct(list)
      ensures forall s :: s in list <==>
                exists id :: id in sessions && sessions[id].projectId == projectId && s == SummaryOf(sessions[id])
    {
      hide SummaryOf, SummariesAgree, Faithful, KeyedById, LastUpdatedFirst;
      var all := SelectSummaries(projectId);
      list := ByUpdate(all);
    }

    /** Rows of older versions are summarised again. */
    method SelectSummaries(projectId: string) returns (all: set<Summary>)
      requires Valid()
      modifies this`summaries, this`cache
      ensures Valid()
      ensures all == set id | id in sessions && sessions[id].projectId == projectId :: SummaryOf(sessions[id])
    {
      hide SummaryOf, SummariesAgree, Faithful, KeyedById, SummariesOf;
      all := {};
      var rest := set id | id in sessions && sessions[id].projectId == projectId;
      ghost var ids := rest;
      NoSummaries(sessions, ids - rest);
      while rest != {}
        invariant Valid() && rest <= ids
        invariant all == SummariesOf(sessions, ids - rest)
        decreases |rest|
      {
        var id :| id in rest;
        SummariesStep(sessions, summaries, ids - rest, id);
        assert ids - rest + {id} == ids - (rest - {id});
        if id in summaries && Usable(summaries[id]) {
          all := all + {summaries[id]};
        } else {
          var value := Find(id);
          var again := SummaryOf(value.value);
          summaries := summaries[id := again];
          all := all + {again};
        }
        rest := rest - {id};
      }
      assert ids - rest == ids;
      ProjectSummaries(sessions, ids, projectId);
    }

    method SyncSession(id: string, revision: Option<int>) returns (r: Option<Sync>)
      requires Valid()
      modifies this`cache
      ensures Valid()
      ensures r == if id in sessions then Some(SyncOf(sessions[id], revision)) else None
    {
      var value := Find(id);
      r := if value.None? then None else Some(SyncOf(value.value, revision));
    }

    /** The revisions the log keeps after one, ascending. */
    method SelectAfter(id: string, after: int) returns (rows: seq<int>)
      ensures InOrder(rows) && forall k :: k in rows <==> k in LogOf(Contents(), id) && k > after
    {
      rows := [];
      var records := if id in log then log[id] else map[];
      var rest := set k | k in records && k > after;
      while rest != {}
        invariant InOrder(rows) && forall i, k :: 0 <= i < |rows| && k in rest ==> rows[i] < k
        invariant forall k :: k in rows || k in rest <==> k in LogOf(Contents(), id) && k > after
        decreases |rest|
      {
        ghost var least := LeastExists(rest);
        var k :| k in rest && forall x :: x in rest ==> k <= x;
        rows := rows + [k];
        rest := rest - {k};
      }
    }

    /** A client's cursor is answered with the records after it exactly when the log
        still has all of them, and with a snapshot otherwise. */
    method EventsSince(id: string, after: int) returns (r: Option<Replay>)
      requires Valid()
      requires id in sessions ==> sessions[id].revision >= 1 && GapFree(LogOf(Contents(), id), sessions[id].revision)
      modifies this`cache
      ensures Valid() && (r.None? <==> id !in sessions)
      ensures id in sessions ==>
                var v, records := sessions[id], LogOf(Contents(), id);
                && (r.value.Since? <==> OldestCursor(v.revision) <= after <= v.revision)
                && (r.value.Whole? ==> r.value.snapshot == v)
                && (r.value.Since? ==> (forall k :: after < k <= v.revision ==> k in records)
                                       && r.value == Since(Range(records, after, v.revision), v.revision))
    {
      var found := Find(id);
      if found.None? {
        return None;
      }
      hide Faithful, SummariesAgree, KeyedById, GapFree, InOrder;
      var rows := SelectAfter(id, after);
      var answer := ReplayOf(found.value, if id in log then log[id] else map[], rows, after);
      r := Some(answer);
    }
  }

  ghost predicate SummariesAgree(sessions: map<string, HostSession>, summaries: map<string, Summary>) {
    forall id :: id in summaries ==> id in sessions && (Usable(summaries[id]) ==> summaries[id] == SummaryOf(sessions[id]))
  }

  ghost predicate KeyedById(sessions: map<string, HostSession>) {
    forall id :: id in sessions ==> sessions[id].session.id == id
  }

  lemma WrittenSummaryAgrees(sessions: map<string, HostSession>, summaries: map<string, Summary>, value: HostSession)
    requires SummariesAgree(sessions, summaries) && KeyedById(sessions)
    ensures SummariesAgree(sessions[value.session.id := value], summaries[value.session.id := SummaryOf(value)])
    ensures KeyedById(sessions[value.session.id := value])
  {
    hide SummaryOf;
  }

  lemma DeletedSummariesAgree(sessions: map<string, HostSession>, summaries: map<string, Summary>, id: string)
    requires SummariesAgree(sessions, summaries) && KeyedById(sessions)
    ensures SummariesAgree(sessions - {id}, summaries - {id}) && KeyedById(sessions - {id})
  {
    hide SummaryOf;
  }

  lemma StaleOnlyThere(c: Cache, sessions: map<string, HostSession>, id: string)
    requires Faithful(c, sessions)
    ensures WellOrdered(c)
    ensures forall x :: x in c.values && x != id ==> x in sessions && c.values[x] == sessions[x]
  {
  }

  function SessionIds(values: seq<HostSession>): seq<string> {
    seq(|values|, i requires 0 <= i < |values| => values[i].session.id)
  }

  /** The rows of these sessions, each once. */
  ghost predicate Lists(values: seq<HostSession>, sessions: map<string, HostSession>, ids: set<string>) {
    && (forall i :: 0 <= i < |values| ==> values[i].session.id in sessions && values[i] == sessions[values[i].session.id])
    && Fresh(SessionIds(values))
    && forall id :: id in SessionIds(values) <==> id in ids
  }

  lemma ListsNothing(sessions: map<string, HostSession>)
    ensures Lists([], sessions, sessions.Keys - sessions.Keys)
  {
  }

  lemma ListsOneMore(values: seq<HostSession>, sessions: map<string, HostSession>, ids: set<string>, id: string)
    requires Lists(values, sessions, ids) && id in sessions && id !in ids && sessions[id].session.id == id
    ensures Lists(values + [sessions[id]], sessions, ids + {id})
  {
    assert SessionIds(values + [sessions[id]]) == SessionIds(values) + [id];
    FreshEnd(SessionIds(values), id);
  }

  predicate LastUpdatedFirst(list: seq<Summary>) {
    forall i, j :: 0 <= i < j < |list| ==> list[i].updatedAt >= list[j].updatedAt
  }

  predicate Distinct(list: seq<Summary>) { forall i, j :: 0 <= i < j < |list| ==> list[i] != list[j] }

  method ByUpdate(all: set<Summary>) returns (list: seq<Summary>)
    ensures LastUpdatedFirst(list) && Distinct(list) && forall s :: s in list <==> s in all
  {
    list := [];
    var rest := all;
    while rest != {}
      invariant LastUpdatedFirst(list) && Distinct(list)
      invariant forall s :: s in all <==> s in list || s in rest
      invariant forall s, t :: s in list && t in rest ==> s != t && s.updatedAt >= t.updatedAt
      decreases |rest|
    {
      ghost var last := LastUpdatedExists(rest);
      var s :| s in rest && forall t :: t in rest ==> s.updatedAt >= t.updatedAt;
      list, rest := list + [s], rest - {s};
    }
  }

  lemma {:induction false} LastUpdatedExists(all: set<Summary>) returns (s: Summary)
    requires all != {}
    ensures s in all && forall t :: t in all ==> s.updatedAt >= t.updatedAt
    decreases |all|
  {
    s :| s in all;
    if all != {s} {
      var t := LastUpdatedExists(all - {s});
      assert forall x :: x in all ==> x == s || x in all - {s};
      if t.updatedAt > s.updatedAt { s := t; }
    }
  }

  function SummariesOf(sessions: map<string, HostSession>, ids: set<string>): set<Summary> {
    set id | id in ids && id in sessions :: SummaryOf(sessions[id])
  }

  lemma NoSummaries(sessions: map<string, HostSession>, ids: set<string>)
    requires ids == {}
    ensures SummariesOf(sessions, ids) == {}
  {
  }

  lemma ProjectSummaries(sessions: map<string, HostSession>, ids: set<string>, projectId: string)
    requires ids == set id | id in sessions && sessions[id].projectId == projectId
    ensures SummariesOf(sessions, ids)
            == set id | id in sessions && sessions[id].projectId == projectId :: SummaryOf(sessions[id])
  {
    hide SummaryOf;
  }

  lemma SummariesStep(sessions: map<string, HostSession>, summaries: map<string, Summary>, ids: set<string>, id: string)
    requires id in sessions && SummariesAgree(sessions, summaries)
    ensures SummariesOf(sessions, ids + {id}) == SummariesOf(sessions, ids) + {SummaryOf(sessions[id])}
    ensures id in summaries && Usable(summaries[id]) ==> summaries[id] == SummaryOf(sessions[id])
    ensures SummariesAgree(sessions, summaries[id := SummaryOf(sessions[id])])
  {
    hide SummaryOf;
  }

  lemma SomeElement(s: set<int>)
    ensures s == {} || exists k :: k in s
  {
    if forall k :: k !in s { assert s == {}; }
  }

  lemma {:induction false} LeastExists(s: set<int>) returns (k: int)
    requires s != {}
    ensures k in s && forall x :: x in s ==> k <= x
    decreases |s|
  {
    SomeElement(s);
    k :| k in s;
    var rest := s - {k};
    if rest != {} {
      var z := LeastExists(rest);
      assert forall x :: x in s ==> x == k || x in rest;
      k := if k < z then k else z;
    }
  }
}
