/** What `host/engine.ts` and `host/store.ts` keep in every run: whatever the order of
    commands, streamed events, timers, settlements, failed writes, crashes and restarts. */
module HostRuns {
  import opened Wrappers
  import opened HostSessions
  import opened DeltaSync
  import opened HostStores
  import opened HostSteps

  // --------------------------------------------------------------- contracts

  function Drafts(blocks: seq<Block>): nat {
    if blocks == [] then 0 else Drafts(blocks[..|blocks| - 1]) + if blocks[|blocks| - 1].draft then 1 else 0
  }

  ghost predicate NoBuilding(blocks: seq<Block>) {
    forall i :: 0 <= i < |blocks| ==>
      !(blocks[i].role == PlanRole && blocks[i].plan.Some? && blocks[i].plan.value.status == Building)
  }

  /** A transcript change that makes no draft. */
  predicate KeepsShape(s: Session, t: Session) { t.id == s.id && (Drafts(s.blocks) == 0 ==> Drafts(t.blocks) == 0) }

  /** What is assumed of the transcript reducer. */
  ghost predicate Lawful(h: Harness) {
    && (forall s, event :: h.apply(s, event).Some? ==> KeepsShape(s, h.apply(s, event).value))
    && (forall s, at :: KeepsShape(s, h.stop(s, at)))
  }

  /** A session waiting has at most one draft and no plan being built; a running one has
      no draft. */
  ghost predicate Shape(v: HostSession) {
    && Drafts(v.session.blocks) <= (if v.status == Running then 0 else 1)
    && (v.status != Running ==> NoBuilding(v.session.blocks))
  }

  // -------------------------------------------------------------- invariants

  /** Everything but the revision and what saving itself adds. */
  function Core(v: HostSession): HostSession {
    v.(revision := 0, createdAt := None, updatedAt := 0, blockRevisions := None)
  }

  ghost predicate Rebuilds(h: Harness, before: HostSession, after: HostSession, events: seq<HarnessEvent>) {
    Core(after) == Core(before.(session := Fold(h, before.session, events)))
  }

  /** One saved revision and the next, with the record the log keeps of the save. */
  ghost predicate Linked(h: Harness, p: map<int, HostSession>, log: map<int, Record>, k: int) {
    k in p && k + 1 in p ==>
      && Follows(Some(p[k]), p[k + 1])
      && (k + 1 in log && log[k + 1].Events? ==> Rebuilds(h, p[k], p[k + 1], log[k + 1].events))
  }

  ghost predicate PastOk(h: Harness, p: map<int, HostSession>, log: map<int, Record>, v: HostSession) {
    && v.revision in p && p[v.revision] == v
    && 1 in p && Follows(None, p[1])
    && (forall k :: k in p ==> 1 <= k <= v.revision && p[k].revision == k && p[k].session.id == v.session.id)
    && (forall k :: k in p && k < v.revision ==> k + 1 in p)
    && (forall k :: Linked(h, p, log, k))
  }

  ghost predicate StoredOk(h: Harness, e: Engine, id: string) {
    if id in e.tables.sessions then
      var v := e.tables.sessions[id];
      && v.session.id == id && id in e.used && v.revision >= 1
      && (v.runId.Some? ==> v.runId.value in e.used)
      && GapFree(LogOf(e.tables, id), v.revision)
      && PastOk(h, PastOf(e, id), LogOf(e.tables, id), v)
    else LogOf(e.tables, id) == map[] && PastOf(e, id) == map[]
  }

  /** The maps in memory agree with the rows. */
  ghost predicate RunOk(h: Harness, e: Engine, id: string) {
    && (id in e.running <==> id in e.tables.sessions && e.tables.sessions[id].status == Running)
    && (id in e.running ==> e.tables.sessions[id].runId == Some(e.running[id].runId))
    && (id in e.live ==> id in e.running && LiveOk(h, e.tables.sessions[id], e.live[id]))
    && (id in e.tables.sessions ==>
          && Shape(e.tables.sessions[id])
          && (e.tables.sessions[id].projectId in e.switching ==> e.tables.sessions[id].status != Running))
  }

  /** A live session is the stored one with the pending events applied. */
  ghost predicate LiveOk(h: Harness, v: HostSession, live: Live) {
    live.value == v.(session := Fold(h, v.session, live.events))
  }

  ghost predicate SessionOk(h: Harness, e: Engine, id: string) { StoredOk(h, e, id) && RunOk(h, e, id) }

  ghost predicate TurnOk(e: Engine, r: string) {
    r in e.turns ==>
      && r in e.used && e.turns[r].sessionId in e.running && e.running[e.turns[r].sessionId].runId == r
      && e.turns[r].commandId in e.tables.receipts
      && (e.turns[r].phase == Queued ==> e.turns[r].commandId !in e.dispatched)
  }

  ghost predicate TurnsOk(e: Engine) {
    && (forall r :: TurnOk(e, r))
    && (forall r, s :: r in e.turns && s in e.turns && r != s ==> e.turns[r].commandId != e.turns[s].commandId)
    && (forall id :: id in e.retryTimers ==>
          && e.retryTimers[id] in e.turns && e.turns[e.retryTimers[id]].sessionId == id
          && e.turns[e.retryTimers[id]].phase == RetryArmed)
  }

  ghost predicate DispatchedOnce(e: Engine) {
    && (forall i, j :: 0 <= i < j < |e.dispatched| ==> e.dispatched[i] != e.dispatched[j])
    && forall c :: c in e.dispatched ==> c in e.tables.receipts
  }

  ghost predicate Inv(h: Harness, e: Engine) {
    SessionsOk(h, e) && TurnsOk(e) && DispatchedOnce(e)
  }

  ghost predicate SessionsOk(h: Harness, e: Engine) { forall id :: SessionOk(h, e, id) }

  /** Generated identifiers are new, and rebinding a provider does not throw. */
  ghost predicate Fair(e: Engine, op: Op, env: Env) {
    && env.newId !in e.used && env.runId !in e.used && env.newId != env.runId
    && (op.TurnStopped? || op.RetryStopped? ==> !env.bindThrows)
  }

  // ------------------------------------------------------------------ frames

  predicate SameAt<T(==)>(m: map<string, T>, m': map<string, T>, id: string) {
    (id in m <==> id in m') && (id in m ==> m'[id] == m[id])
  }

  ghost predicate SameSession(e: Engine, e': Engine, id: string) {
    && SameAt(e.tables.sessions, e'.tables.sessions, id) && LogOf(e'.tables, id) == LogOf(e.tables, id)
    && PastOf(e', id) == PastOf(e, id) && SameAt(e.running, e'.running, id) && SameAt(e.live, e'.live, id)
    && e.used <= e'.used && e'.switching <= e.switching
  }

  lemma Untouched(h: Harness, e: Engine, e': Engine, id: string)
    requires SessionOk(h, e, id) && SameSession(e, e', id)
    ensures SessionOk(h, e', id)
  {
    hide PastOk, GapFree, Shape, LiveOk, LogOf, PastOf;
  }

  /** Turns depend on who runs, the receipts and what was dispatched. */
  lemma TurnsUntouched(e: Engine, e': Engine)
    requires TurnsOk(e) && e'.turns == e.turns && e'.retryTimers == e.retryTimers
    requires e'.dispatched == e.dispatched && e'.tables.receipts.Keys >= e.tables.receipts.Keys && e.used <= e'.used
    requires forall id :: id in e.running ==> id in e'.running && e'.running[id].runId == e.running[id].runId
    ensures TurnsOk(e')
  {
    forall r ensures TurnOk(e', r) { assert TurnOk(e, r); }
  }

  // ------------------------------------------------------------------ saving

  lemma PastStep(h: Harness, p: map<int, HostSession>, log: map<int, Record>, v: HostSession, next: HostSession, record: Record)
    requires PastOk(h, p, log, v) && next.revision == v.revision + 1 && next.session.id == v.session.id
    requires Follows(Some(v), next) && v.revision >= 1
    requires record.Events? ==> Rebuilds(h, v, next, record.events)
    ensures PastOk(h, p[next.revision := next], Logged(log, next.revision, record), next)
  {
    hide Follows, Rebuilds;
    var p', log' := p[next.revision := next], Logged(log, next.revision, record);
    forall k ensures Linked(h, p', log', k) {
      assert Linked(h, p, log, k);
    }
  }

  lemma FirstPast(h: Harness, log: map<int, Record>, v: HostSession)
    requires v.revision == 1 && Follows(None, v)
    ensures PastOk(h, map[v.revision := v], log, v)
  {
    forall k ensures Linked(h, map[v.revision := v], log, k) {}
  }

  lemma StampedFollows(previous: Option<HostSession>, input: HostSession)
    requires previous.Some? ==> input.revision == previous.value.revision + 1 && input.session.id == previous.value.session.id
    ensures Follows(previous, Stamped(previous, input)) && Core(Stamped(previous, input)) == Core(input)
  {
    StampsAreUnique(Stamps(previous, input.session.blocks, input.revision), previous, input.session.blocks, input.revision);
  }

  ghost predicate NextSave(h: Harness, e: Engine, input: HostSession, record: Record) {
    var id := input.session.id;
    && id in e.used && (input.runId.Some? ==> input.runId.value in e.used)
    && if id in e.tables.sessions
       then input.revision == e.tables.sessions[id].revision + 1
            && (record.Events? ==> Rebuilds(h, e.tables.sessions[id], input, record.events))
       else input.revision == 1 && !record.Events?
  }

  /** A save extends the past and the log of its session by one revision. */
  lemma WrittenIsStored(h: Harness, e: Engine, input: HostSession, record: Record)
    requires StoredOk(h, e, input.session.id) && NextSave(h, e, input, record)
    ensures StoredOk(h, Written(e, input, record), input.session.id)
    ensures Core(Written(e, input, record).tables.sessions[input.session.id]) == Core(input)
    ensures Written(e, input, record).tables.sessions[input.session.id].revision == input.revision
  {
    var id, e' := input.session.id, Written(e, input, record);
    var previous, v := RowOf(e.tables, id), e'.tables.sessions[id];
    assert v == Stamped(previous, input);
    StampedFollows(previous, input);
    var log := LogOf(e.tables, id);
    assert LogOf(e'.tables, id) == Logged(log, input.revision, record);
    assert PastOf(e', id) == PastOf(e, id)[input.revision := v];
    SaveKeepsGapFree(log, input.revision - 1, record);
    hide Stamped, Follows, GapFree, Logged, PastOk;
    if previous.Some? {
      assert record.Events? ==> Rebuilds(h, previous.value, v, record.events);
      PastStep(h, PastOf(e, id), log, previous.value, v, record);
    } else {
      FirstPast(h, Logged(log, input.revision, record), v);
    }
  }

  // ------------------------------------------------------------------- flush

  function Effective(e: Engine, id: string): HostSession
    requires id in e.tables.sessions
  {
    if id in e.live then e.live[id].value else e.tables.sessions[id]
  }

  /** Nothing of a session waits to be written. */
  ghost predicate Quiet(e: Engine, id: string) {
    id in e.live ==> id in e.tables.sessions && e.live[id] == Live(e.tables.sessions[id], [])
  }

  ghost predicate SameElsewhere(e: Engine, e': Engine, id: string) {
    forall x :: x != id ==> SameSession(e, e', x)
  }

  predicate SameControl(e: Engine, e': Engine) {
    && e'.running == e.running && e'.retryTimers == e.retryTimers && e'.turns == e.turns
    && e'.switching == e.switching && e'.closing == e.closing && e'.dispatched == e.dispatched
    && e'.used == e.used && e'.tables.receipts == e.tables.receipts && e'.projects == e.projects
  }

  lemma {:induction false} FoldKeepsShape(h: Harness, s: Session, events: seq<HarnessEvent>)
    requires Lawful(h)
    ensures KeepsShape(s, Fold(h, s, events))
    decreases |events|
  {
    if events != [] { FoldKeepsShape(h, s, events[..|events| - 1]); }
  }

  lemma OneChanged(h: Harness, e: Engine, e': Engine, id: string)
    requires SessionsOk(h, e) && SameElsewhere(e, e', id) && SessionOk(h, e', id)
    ensures SessionsOk(h, e')
  {
    hide SessionOk, SameSession;
    forall x ensures SessionOk(h, e', x) {
      assert SessionOk(h, e, x);
      if x != id { Untouched(h, e, e', x); }
    }
  }

  /** A save touches one session, and nothing in memory. */
  lemma WrittenFrame(e: Engine, input: HostSession, record: Record)
    ensures SameElsewhere(e, Written(e, input, record), input.session.id) && SameControl(e, Written(e, input, record))
    ensures Written(e, input, record).live == e.live
  {
    var e' := Written(e, input, record);
    assert e'.tables.sessions == e.tables.sessions[input.session.id := e'.tables.sessions[input.session.id]];
    hide Stamped, Logged;
  }

  lemma FlushInput(h: Harness, e: Engine, id: string, now: Time)
    requires Lawful(h) && SessionOk(h, e, id) && id in e.live
    ensures id in e.tables.sessions && e.live[id].value.session.id == id
    ensures Drafts(e.live[id].value.session.blocks) == 0
    ensures var v := e.live[id].value;
            NextSave(h, e, v.(revision := v.revision + 1, updatedAt := now), Events(e.live[id].events))
  {
    FoldKeepsShape(h, e.tables.sessions[id].session, e.live[id].events);
    hide Fold, GapFree, PastOk;
  }

  /** What a flush of waiting events does to its session. */
  lemma FlushWrites(h: Harness, e: Engine, id: string, now: Time)
    requires Lawful(h) && SessionOk(h, e, id) && id in e.live && e.live[id].events != []
    ensures var e' := Flushed(e, id, now, false);
            && SessionOk(h, e', id) && Quiet(e', id) && SameElsewhere(e, e', id) && SameControl(e, e')
            && id in e'.live && id in e'.tables.sessions
            && Core(e'.tables.sessions[id]) == Core(e.live[id].value)
  {
    hide SessionOk, Written, Flushed, NextSave, StoredOk, Quiet, SameSession;
    FlushInput(h, e, id, now);
    FlushedIs(e, id, now);
    var v, record := e.live[id].value, Events(e.live[id].events);
    var input := v.(revision := v.revision + 1, updatedAt := now);
    HasStored(h, e, id);
    WrittenIsStored(h, e, input, record);
    WrittenFrame(e, input, record);
    var written, e' := Written(e, input, record), Flushed(e, id, now, false);
    LiveChanged(e, written, e', id);
    SameStored(h, written, e', id);
    FlushedSession(h, e, id, now);
  }

  lemma FlushedIs(e: Engine, id: string, now: Time)
    requires id in e.live && e.live[id].events != [] && e.live[id].value.session.id == id
    ensures var v := e.live[id].value;
            var written := Written(e, v.(revision := v.revision + 1, updatedAt := now), Events(e.live[id].events));
            Flushed(e, id, now, false) == written.(live := written.live[id := Live(written.tables.sessions[id], [])])
  {
    hide Saved;
  }

  lemma HasStored(h: Harness, e: Engine, id: string)
    requires SessionOk(h, e, id)
    ensures StoredOk(h, e, id) && RunOk(h, e, id)
  {
  }

  lemma LiveChanged(e: Engine, e1: Engine, e2: Engine, id: string)
    requires SameElsewhere(e, e1, id) && SameControl(e, e1)
    requires id in e2.live && e2 == e1.(live := e1.live[id := e2.live[id]])
    ensures SameElsewhere(e, e2, id) && SameControl(e, e2)
  {
    hide LogOf;
    forall x | x != id ensures SameSession(e, e2, x) { assert SameSession(e, e1, x); }
  }

  lemma SameStored(h: Harness, e: Engine, e': Engine, id: string)
    requires StoredOk(h, e, id) && e'.tables == e.tables && e'.past == e.past && e.used <= e'.used
    ensures StoredOk(h, e', id)
  {
    hide GapFree, PastOk;
  }

  lemma FlushedSession(h: Harness, e: Engine, id: string, now: Time)
    requires Lawful(h) && SessionOk(h, e, id) && id in e.live && e.live[id].events != []
    requires StoredOk(h, Flushed(e, id, now, false), id)
    requires id in Flushed(e, id, now, false).tables.sessions
    requires Core(Flushed(e, id, now, false).tables.sessions[id]) == Core(e.live[id].value)
    requires Drafts(e.live[id].value.session.blocks) == 0 && e.live[id].value.session.id == id
    ensures SessionOk(h, Flushed(e, id, now, false), id) && Quiet(Flushed(e, id, now, false), id)
  {
    hide StoredOk, Saved;
  }

  /** A flush writes what the session already was. */
  lemma FlushKeeps(h: Harness, e: Engine, id: string, now: Time, fails: bool)
    requires Lawful(h) && Inv(h, e)
    ensures var e' := Flushed(e, id, now, fails);
            && Inv(h, e') && SameElsewhere(e, e', id) && SameControl(e, e')
            && (id in e.tables.sessions <==> id in e'.tables.sessions)
            && (id in e.live <==> id in e'.live)
            && (id in e.tables.sessions ==> Core(Effective(e', id)) == Core(Effective(e, id)))
            && (!FlushThrows(e, id, fails) ==> Quiet(e', id))
            && (!FlushThrows(e, id, fails) && id in e.tables.sessions ==>
                  Core(e'.tables.sessions[id]) == Core(Effective(e, id)))
  {
    assert SessionOk(h, e, id);
    var e' := Flushed(e, id, now, fails);
    if id in e.live && e.live[id].events != [] && !fails {
      FlushWrites(h, e, id, now);
      assert id in e.tables.sessions;
      hide SessionOk, SameElsewhere, TurnsOk, Flushed, SessionsOk, DispatchedOnce, Quiet, Core;
      OneChanged(h, e, e', id);
      TurnsUntouched(e, e');
      SameDispatch(e, e');
    } else {
      QuietOrThrows(h, e, id, fails);
      hide SessionOk, TurnsOk, SessionsOk;
    }
  }

  lemma QuietOrThrows(h: Harness, e: Engine, id: string, fails: bool)
    requires SessionOk(h, e, id) && !(id in e.live && e.live[id].events != [] && !fails)
    ensures !FlushThrows(e, id, fails) ==> Quiet(e, id)
    ensures !FlushThrows(e, id, fails) && id in e.tables.sessions ==> e.tables.sessions[id] == Effective(e, id)
  {
  }

  /** A save that leaves the run of its session as it is. */
  lemma SavedKeeps(h: Harness, e: Engine, input: HostSession, record: Record)
    requires Inv(h, e) && input.session.id in e.tables.sessions && Quiet(e, input.session.id)
    requires NextSave(h, e, input, record) && Shape(input)
    requires SameRun(e.tables.sessions[input.session.id], input)
    ensures var e' := Refreshed(Written(e, input, record), input.session.id);
            && Inv(h, e') && Quiet(e', input.session.id)
            && SameElsewhere(e, e', input.session.id) && SameControl(e, e')
            && input.session.id in e'.tables.sessions
            && Core(e'.tables.sessions[input.session.id]) == Core(input)
  {
    hide SessionsOk, SessionOk, Written, NextSave, SameSession, TurnsOk, DispatchedOnce, Shape;
    var id := input.session.id;
    var written := Written(e, input, record);
    var e' := Refreshed(written, id);
    SessionsOkAt(h, e, id);
    WrittenIsStored(h, e, input, record);
    WrittenFrame(e, input, record);
    if id in written.live { LiveChanged(e, written, e', id); }
    SameStored(h, written, e', id);
    SavedSession(h, e, written, input);
    OneChanged(h, e, e', id);
    TurnsUntouched(e, e');
    SameDispatch(e, e');
  }

  predicate SameRun(v: HostSession, input: HostSession) {
    input.status == v.status && input.runId == v.runId && input.projectId == v.projectId
  }

  lemma SessionsOkAt(h: Harness, e: Engine, id: string)
    requires SessionsOk(h, e)
    ensures SessionOk(h, e, id) && StoredOk(h, e, id) && RunOk(h, e, id)
  {
    assert SessionOk(h, e, id);
  }

  lemma SameDispatch(e: Engine, e': Engine)
    requires DispatchedOnce(e) && e'.dispatched == e.dispatched && e.tables.receipts.Keys <= e'.tables.receipts.Keys
    ensures DispatchedOnce(e')
  {
  }

  lemma ShapeOfCore(v: HostSession, w: HostSession)
    requires Core(v) == Core(w)
    ensures Shape(v) <==> Shape(w)
  {
    assert v.session == w.session;
  }

  lemma SavedSession(h: Harness, e: Engine, written: Engine, input: HostSession)
    requires var id := input.session.id;
             && id in e.tables.sessions && id in written.tables.sessions && RunOk(h, e, id) && Quiet(e, id)
             && Core(written.tables.sessions[id]) == Core(input) && Shape(input)
             && SameRun(e.tables.sessions[id], input) && SameControl(e, written) && written.live == e.live
             && StoredOk(h, written, id) && StoredOk(h, Refreshed(written, id), id)
    ensures SessionOk(h, Refreshed(written, input.session.id), input.session.id)
    ensures Quiet(Refreshed(written, input.session.id), input.session.id)
  {
    hide StoredOk, Shape;
    ShapeOfCore(written.tables.sessions[input.session.id], input);
  }

  // ------------------------------------------------------------- small steps

  /** A change of memory that leaves every session and turn as it is. */
  lemma MemoryKeeps(h: Harness, e: Engine, e': Engine)
    requires Inv(h, e) && e'.tables.sessions == e.tables.sessions && e'.tables.log == e.tables.log && e'.past == e.past
    requires e'.live == e.live && e'.switching <= e.switching && e.used <= e'.used
    requires e'.running.Keys == e.running.Keys
    requires forall id :: id in e.running ==> e'.running[id].runId == e.running[id].runId
    requires TurnsOk(e') && DispatchedOnce(e')
    ensures Inv(h, e')
  {
    hide StoredOk, TurnsOk, DispatchedOnce, LiveOk, Shape;
    forall id ensures SessionOk(h, e', id) {
      assert SessionOk(h, e, id);
      SameRows(h, e, e', id);
    }
  }

  lemma SameRows(h: Harness, e: Engine, e': Engine, id: string)
    requires StoredOk(h, e, id) && e.used <= e'.used && e'.past == e.past
    requires e'.tables.sessions == e.tables.sessions && e'.tables.log == e.tables.log
    ensures StoredOk(h, e', id)
  {
    hide PastOk, GapFree;
  }

  lemma FlagKeeps(h: Harness, e: Engine, id: string, active: Active)
    requires Inv(h, e) && id in e.running && active.runId == e.running[id].runId
    ensures Inv(h, e.(running := e.running[id := active]))
  {
    hide SessionsOk, DispatchedOnce;
    var e' := e.(running := e.running[id := active]);
    TurnsUntouched(e, e');
    SameDispatch(e, e');
    MemoryKeeps(h, e, e');
  }

  lemma TimerKeeps(h: Harness, e: Engine, id: string, now: Time, fails: bool)
    requires Lawful(h) && Inv(h, e)
    ensures Inv(h, TimerFlushed(e, id, now, fails))
  {
    hide Inv;
    FlushKeeps(h, e, id, now, fails);
    if FlushThrows(e, id, fails) && id in e.running {
      FlagKeeps(h, Flushed(e, id, now, fails), id, e.running[id].(persistenceFailed := true));
    }
  }

  lemma AcceptedKeeps(h: Harness, e: Engine, id: string, event: HarnessEvent)
    requires Inv(h, e) && id in e.live && h.apply(e.live[id].value.session, event).Some?
    ensures var live := e.live[id];
            Inv(h, e.(live := e.live[id := Live(live.value.(session := h.apply(live.value.session, event).value),
                                                live.events + [event])]))
  {
    SessionsOkAt(h, e, id);
    var live, v := e.live[id], e.tables.sessions[id];
    assert (live.events + [event])[..|live.events|] == live.events;
    var next := Live(live.value.(session := h.apply(live.value.session, event).value), live.events + [event]);
    var e' := e.(live := e.live[id := next]);
    assert LiveOk(h, v, next);
    hide Fold, StoredOk, TurnsOk, DispatchedOnce, LiveOk, SessionsOk;
    SameRows(h, e, e', id);
    assert SameElsewhere(e, e', id) by { forall x | x != id ensures SameSession(e, e', x) {} }
    OneChanged(h, e, e', id);
    TurnsUntouched(e, e');
    SameDispatch(e, e');
  }

  lemma EmitKeeps(h: Harness, e: Engine, id: string, runId: string, event: HarnessEvent, env: Env)
    requires Lawful(h) && Inv(h, e)
    ensures Inv(h, Emitted(h, e, id, runId, event, env))
  {
    hide Inv, TimerFlushed;
    if Accepts(e, id, runId) && h.apply(e.live[id].value.session, event).Some? {
      AcceptedKeeps(h, e, id, event);
      var live := e.live[id];
      var next := e.(live := e.live[id := Live(live.value.(session := h.apply(live.value.session, event).value),
                                              live.events + [event])]);
      TimerKeeps(h, next, id, env.now, env.flushFails);
    }
  }

  // ------------------------------------------------------------------- turns

  /** A turn moves to another phase; a queued one may be handed to its provider. */
  lemma PhaseKeeps(h: Harness, e: Engine, r: string, turn: Turn, sends: bool)
    requires Inv(h, e) && r in e.turns && turn.sessionId == e.turns[r].sessionId && turn.commandId == e.turns[r].commandId
    requires turn.phase != Queued && e.turns[r].phase != RetryArmed && (sends ==> e.turns[r].phase == Queued)
    ensures Inv(h, e.(turns := e.turns[r := turn], dispatched := e.dispatched + if sends then [turn.commandId] else []))
  {
    var e' := e.(turns := e.turns[r := turn], dispatched := e.dispatched + if sends then [turn.commandId] else []);
    PhaseTurns(e, r, turn, sends);
    hide SessionsOk, TurnsOk, DispatchedOnce;
    MemoryKeeps(h, e, e');
  }

  lemma PhaseTurns(e: Engine, r: string, turn: Turn, sends: bool)
    requires TurnsOk(e) && DispatchedOnce(e)
    requires r in e.turns && turn.sessionId == e.turns[r].sessionId && turn.commandId == e.turns[r].commandId
    requires turn.phase != Queued && e.turns[r].phase != RetryArmed && (sends ==> e.turns[r].phase == Queued)
    ensures var e' := e.(turns := e.turns[r := turn], dispatched := e.dispatched + if sends then [turn.commandId] else []);
            TurnsOk(e') && DispatchedOnce(e')
  {
    var e' := e.(turns := e.turns[r := turn], dispatched := e.dispatched + if sends then [turn.commandId] else []);
    assert TurnOk(e, r);
    forall s ensures TurnOk(e', s) { assert TurnOk(e, s); }
    hide TurnOk;
    DispatchGrows(e, e', turn.commandId, sends);
  }

  lemma DispatchGrows(e: Engine, e': Engine, c: string, sends: bool)
    requires DispatchedOnce(e) && e'.tables == e.tables
    requires e'.dispatched == e.dispatched + if sends then [c] else []
    requires sends ==> c !in e.dispatched && c in e.tables.receipts
    ensures DispatchedOnce(e')
  {
  }

  lemma StartedKeeps(h: Harness, e: Engine, r: string)
    requires Inv(h, e)
    ensures Inv(h, Started(e, r))
  {
    hide Inv;
    if r in e.turns && e.turns[r].phase == Queued {
      var turn := e.turns[r];
      assert e.dispatched + [] == e.dispatched;
      PhaseKeeps(h, e, r, turn.(phase := Stopping), false);
      PhaseKeeps(h, e, r, turn.(phase := InProvider), true);
    }
  }

  /** There is one turn to a running session. */
  lemma OneTurn(h: Harness, e: Engine, r: string, s: string)
    requires Inv(h, e) && r in e.turns && s in e.turns && e.turns[r].sessionId == e.turns[s].sessionId
    ensures r == s
  {
    assert TurnOk(e, r) && TurnOk(e, s);
  }

  lemma TurnRuns(h: Harness, e: Engine, r: string)
    requires Inv(h, e) && r in e.turns
    ensures var id := e.turns[r].sessionId;
            && id in e.running && id in e.tables.sessions && e.tables.sessions[id].status == Running
            && e.tables.sessions[id].runId == Some(r) && e.tables.sessions[id].session.id == id
            && (e.turns[r].phase != RetryArmed ==> id !in e.retryTimers)
  {
    assert TurnOk(e, r);
    SessionsOkAt(h, e, e.turns[r].sessionId);
    if e.turns[r].phase != RetryArmed && e.turns[r].sessionId in e.retryTimers {
      OneTurn(h, e, r, e.retryTimers[e.turns[r].sessionId]);
    }
  }

  lemma FailedKeeps(h: Harness, e: Engine, r: string)
    requires Inv(h, e) && r in e.turns && e.turns[r].phase != RetryArmed && e.turns[r].phase != Queued
    ensures Inv(h, Failed(e, e.turns[r].sessionId, r))
  {
    hide TurnsOk, SessionsOk;
    var id := e.turns[r].sessionId;
    TurnRuns(h, e, r);
    var e' := Failed(e, id, r);
    FailedTurns(e, id, r);
    SameDispatch(e, e');
    hide DispatchedOnce;
    MemoryKeeps(h, e, e');
  }

  lemma FailedTurns(e: Engine, id: string, r: string)
    requires TurnsOk(e) && r in e.turns && e.turns[r].sessionId == id
    requires e.turns[r].phase != RetryArmed && e.turns[r].phase != Queued && id !in e.retryTimers
    ensures TurnsOk(Failed(e, id, r))
  {
    var e' := Failed(e, id, r);
    forall s ensures TurnOk(e', s) { assert TurnOk(e, s); }
    hide TurnOk;
    forall x | x in e'.retryTimers
      ensures e'.retryTimers[x] in e'.turns && e'.turns[e'.retryTimers[x]].sessionId == x
      ensures e'.turns[e'.retryTimers[x]].phase == RetryArmed
    {
    }
  }

  lemma LiveDropped(h: Harness, e: Engine, id: string)
    requires Inv(h, e)
    ensures Inv(h, e.(live := e.live - {id}))
  {
    var e' := e.(live := e.live - {id});
    SessionsOkAt(h, e, id);
    hide StoredOk, TurnsOk, DispatchedOnce, SessionsOk;
    SameRows(h, e, e', id);
    assert SameElsewhere(e, e', id) by { forall x | x != id ensures SameSession(e, e', x) {} }
    OneChanged(h, e, e', id);
    TurnsUntouched(e, e');
    SameDispatch(e, e');
  }

  // ---------------------------------------------------------------- settling

  lemma {:induction false} SameDrafts(a: seq<Block>, b: seq<Block>)
    requires |a| == |b| && forall i :: 0 <= i < |a| ==> a[i].draft == b[i].draft
    ensures Drafts(a) == Drafts(b)
    decreases |a|
  {
    if a != [] { SameDrafts(a[..|a| - 1], b[..|b| - 1]); }
  }

  lemma OneMoreDraft(blocks: seq<Block>, b: Block)
    ensures Drafts(blocks + [b]) == Drafts(blocks) + if b.draft then 1 else 0
  {
    assert (blocks + [b])[..|blocks|] == blocks;
  }

  lemma SettledShape(h: Harness, v: HostSession, status: Status, message: Option<string>, at: Time, newId: string)
    requires Lawful(h) && status != Running && Drafts(v.session.blocks) == 0
    ensures Shape(SettledValue(h, v, status, message, at, newId))
    ensures SettledValue(h, v, status, message, at, newId).session.id == v.session.id
    ensures Drafts(SettledValue(h, v, status, message, at, newId).session.blocks) == 0
  {
    var stopped := h.stop(v.session, at);
    assert KeepsShape(v.session, stopped);
    var plan := if status == Idle && !Says(message) then Built else Ready;
    SettledBlocksShape(stopped.blocks, plan);
    var blocks := SettledBlocks(stopped.blocks, plan);
    hide SettledBlocks, Drafts, Lawful, KeepsShape;
    assert blocks + [] == blocks;
    NoticeShape(blocks, newId, if Says(message) then message.value else "");
  }

  lemma SettledBlocksShape(blocks: seq<Block>, plan: PlanStatus)
    requires plan != Building
    ensures Drafts(SettledBlocks(blocks, plan)) == Drafts(blocks) && NoBuilding(SettledBlocks(blocks, plan))
  {
    SameDrafts(SettledBlocks(blocks, plan), blocks);
  }

  lemma NoticeShape(blocks: seq<Block>, id: string, text: string)
    requires Drafts(blocks) == 0 && NoBuilding(blocks)
    ensures Drafts(blocks + [SystemBlock(id, text)]) == 0 && NoBuilding(blocks + [SystemBlock(id, text)])
  {
    OneMoreDraft(blocks, SystemBlock(id, text));
  }

  /** A turn ends: its session is stored as not running and forgotten in memory. */
  lemma SettleKeeps(h: Harness, e: Engine, r: string, input: HostSession, record: Record)
    requires Inv(h, e) && r in e.turns && e.turns[r].phase != RetryArmed
    requires input.session.id == e.turns[r].sessionId && input.session.id !in e.live
    requires NextSave(h, e, input, record) && Shape(input) && input.status != Running
    ensures var free := Written(e, input, record).(running := e.running - {input.session.id});
            Inv(h, Done(free, r))
  {
    var id := input.session.id;
    TurnRuns(h, e, r);
    SessionsOkAt(h, e, id);
    var written := Written(e, input, record);
    var e' := Done(written.(running := e.running - {id}), r);
    WrittenIsStored(h, e, input, record);
    WrittenFrame(e, input, record);
    EndedTurns(h, e, e', r);
    hide Written, NextSave, TurnsOk, SessionsOk, StoredOk, SameSession;
    SettledElsewhere(e, written, e', id);
    SettledSession(h, written, e', input);
    OneChanged(h, e, e', id);
    SameDispatch(e, e');
  }

  lemma SettledElsewhere(e: Engine, e1: Engine, e2: Engine, id: string)
    requires SameElsewhere(e, e1, id) && SameControl(e, e1)
    requires e2.tables == e1.tables && e2.past == e1.past && e2.live == e1.live
    requires e2.running == e.running - {id} && e2.switching == e1.switching && e2.used == e1.used
    ensures SameElsewhere(e, e2, id)
  {
    forall x | x != id ensures SameSession(e, e2, x) { assert SameSession(e, e1, x); }
  }

  lemma SettledSession(h: Harness, e1: Engine, e2: Engine, input: HostSession)
    requires var id := input.session.id;
             && StoredOk(h, e1, id) && id in e1.tables.sessions && Core(e1.tables.sessions[id]) == Core(input)
             && Shape(input) && input.status != Running
             && e2.tables == e1.tables && e2.past == e1.past && e1.used <= e2.used
             && id !in e2.running && id !in e2.live
    ensures SessionOk(h, e2, input.session.id)
  {
    ShapeOfCore(e1.tables.sessions[input.session.id], input);
    hide Shape;
    SameRows(h, e1, e2, input.session.id);
  }

  lemma EndedTurns(h: Harness, e: Engine, e': Engine, r: string)
    requires Inv(h, e) && r in e.turns && e.turns[r].phase != RetryArmed
    requires e'.turns == e.turns - {r} && e'.retryTimers == e.retryTimers && e'.dispatched == e.dispatched
    requires e'.tables.receipts == e.tables.receipts && e.used <= e'.used
    requires e'.running == e.running - {e.turns[r].sessionId}
    ensures TurnsOk(e')
  {
    TurnRuns(h, e, r);
    forall s ensures TurnOk(e', s) {
      assert TurnOk(e, s);
      if s in e'.turns && e.turns[s].sessionId == e.turns[r].sessionId { OneTurn(h, e, r, s); }
    }
  }

  lemma RunningHasNoDraft(h: Harness, e: Engine, id: string)
    requires Inv(h, e) && id in e.running
    ensures id in e.tables.sessions && Drafts(e.tables.sessions[id].session.blocks) == 0
  {
    SessionsOkAt(h, e, id);
  }

  lemma NextInput(h: Harness, e: Engine, id: string, v: HostSession, record: Record, now: Time)
    requires Inv(h, e) && id in e.tables.sessions && v.session.id == id && !record.Events?
    requires v.revision == e.tables.sessions[id].revision && v.runId == e.tables.sessions[id].runId
    ensures NextSave(h, e, v.(revision := v.revision + 1, updatedAt := now), record)
  {
    SessionsOkAt(h, e, id);
    hide GapFree, PastOk;
  }

  /** The settlement of a turn, and its retry, end the turn or arrange another try. */
  lemma SettledKeeps(h: Harness, e: Engine, r: string, status: Status, message: Option<string>, at: Time, env: Env,
                     record: Record)
    requires Lawful(h) && Inv(h, e) && r in e.turns && e.turns[r].phase != RetryArmed && status != Running
    requires e.turns[r].sessionId in e.tables.sessions && e.turns[r].sessionId !in e.live && !record.Events?
    ensures var id := e.turns[r].sessionId;
            var saved := SavedAs(e, SettledValue(h, e.tables.sessions[id], status, message, at, env.newId), record, env.now);
            Inv(h, Done(saved.(running := saved.running - {id}), r))
  {
    hide Inv, Drafts, SettledValue, SavedAs, Shape;
    var id := e.turns[r].sessionId;
    TurnRuns(h, e, r);
    RunningHasNoDraft(h, e, id);
    var v := e.tables.sessions[id];
    SettledShape(h, v, status, message, at, env.newId);
    var value := SettledValue(h, v, status, message, at, env.newId);
    SettledRun(h, v, status, message, at, env.newId);
    NextInput(h, e, id, value, record, env.now);
    var input := value.(revision := value.revision + 1, updatedAt := env.now);
    SameShape(value, input);
    SettleKeeps(h, e, r, input, record);
    SavedIs(e, value, record, env.now);
  }

  lemma SavedIs(e: Engine, v: HostSession, record: Record, now: Time)
    ensures SavedAs(e, v, record, now) == Written(e, v.(revision := v.revision + 1, updatedAt := now), record)
    ensures SavedAs(e, v, record, now).running == e.running
  {
    hide Saved;
  }

  lemma SettledRun(h: Harness, v: HostSession, status: Status, message: Option<string>, at: Time, newId: string)
    ensures var w := SettledValue(h, v, status, message, at, newId);
            w.revision == v.revision && w.runId == v.runId && w.status == status && w.projectId == v.projectId
  {
  }

  lemma SameShape(v: HostSession, w: HostSession)
    requires w.session == v.session && w.status == v.status
    ensures Shape(v) <==> Shape(w)
  {
  }

  lemma StoppedKeeps(h: Harness, e: Engine, r: string, env: Env)
    requires Lawful(h) && Inv(h, e) && r in e.turns && e.turns[r].phase == Stopping && !env.bindThrows
    ensures Inv(h, Stopped(h, e, r, env))
  {
    hide Inv, Flushed, SettledValue, Message, SavedAs;
    var id, error := e.turns[r].sessionId, e.turns[r].error;
    if env.stopFails || FlushThrows(e, id, env.flushFails) {
      FailedKeeps(h, e, r);
    } else {
      FlushKeeps(h, e, id, env.now, env.flushFails);
      var flushed := Flushed(e, id, env.now, env.flushFails);
      var gone := flushed.(live := flushed.live - {id});
      LiveDropped(h, flushed, id);
      TurnRuns(h, gone, r);
      if env.saveFails {
        FailedKeeps(h, gone, r);
      } else {
        var failed := gone.running[id].persistenceFailed;
        SettledKeeps(h, gone, r, if gone.closing || failed then Interrupted else Idle, Message(gone, id, error), env.now, env,
                     Settled(error, gone.running[id].cancelled));
      }
    }
  }

  lemma RetriedKeeps(h: Harness, e: Engine, r: string, env: Env)
    requires Lawful(h) && Inv(h, e) && r in e.turns && e.turns[r].phase == RetryStopping && !env.bindThrows
    ensures Inv(h, RetriedStop(h, e, r, env))
  {
    hide Inv, Flushed, SettledValue;
    var id := e.turns[r].sessionId;
    if env.stopFails || FlushThrows(e, id, env.flushFails) {
      FailedKeeps(h, e, r);
    } else {
      FlushKeeps(h, e, id, env.now, env.flushFails);
      var flushed := Flushed(e, id, env.now, env.flushFails);
      TurnRuns(h, flushed, r);
      if env.saveFails {
        FailedKeeps(h, flushed, r);
      } else {
        var gone := flushed.(live := flushed.live - {id});
        LiveDropped(h, flushed, id);
        TurnRuns(h, gone, r);
        var latest := flushed.tables.sessions[id];
        SettledKeeps(h, gone, r, Interrupted, Some(STORAGE_FAILED), latest.updatedAt, env,
                     InterruptedTurn(Some("persistence failure")));
        SavedWithoutLive(flushed, id, SettledValue(h, latest, Interrupted, Some(STORAGE_FAILED), latest.updatedAt, env.newId),
                         InterruptedTurn(Some("persistence failure")), env.now);
      }
    }
  }

  /** It does not matter whether a session is forgotten before or after it is saved. */
  lemma SavedWithoutLive(e: Engine, id: string, v: HostSession, record: Record, now: Time)
    ensures var saved := SavedAs(e, v, record, now);
            SavedAs(e.(live := e.live - {id}), v, record, now) == saved.(live := saved.live - {id})
  {
    hide Saved;
  }

  // ---------------------------------------------------------------- commands

  lemma {:induction false} KeptShape(blocks: seq<Block>, id: string)
    ensures Drafts(WithoutDrafts(blocks)) == 0
    ensures Drafts(WithoutId(blocks, id)) <= Drafts(blocks)
    ensures NoBuilding(blocks) ==> NoBuilding(WithoutId(blocks, id))
    decreases |blocks|
  {
    if blocks != [] {
      KeptShape(blocks[1..], id);
      DraftsFromFront(blocks);
      DraftsFromFront([blocks[0]] + WithoutId(blocks[1..], id));
      DraftsFromFront([blocks[0]] + WithoutDrafts(blocks[1..]));
      var kept := WithoutId(blocks, id);
      if NoBuilding(blocks) {
        forall i | 0 <= i < |kept|
          ensures !(kept[i].role == PlanRole && kept[i].plan.Some? && kept[i].plan.value.status == Building)
        {
          assert kept[i] in blocks;
        }
      }
    }
  }

  lemma {:induction false} DraftsFromFront(blocks: seq<Block>)
    ensures blocks != [] ==> Drafts(blocks) == Drafts(blocks[1..]) + if blocks[0].draft then 1 else 0
    decreases |blocks|
  {
    if |blocks| > 1 {
      DraftsFromFront(blocks[..|blocks| - 1]);
      assert blocks[..|blocks| - 1][1..] == blocks[1..][..|blocks| - 2];
    }
  }

  lemma {:induction false} DraftsCount(blocks: seq<Block>)
    ensures Drafts(blocks) == 0 <==> !HasDraft(blocks)
    decreases |blocks|
  {
    if blocks != [] {
      var n := |blocks| - 1;
      DraftsCount(blocks[..n]);
      if HasDraft(blocks) {
        var i :| 0 <= i < |blocks| && blocks[i].draft;
        if i < n { assert blocks[..n][i].draft; }
      }
      if HasDraft(blocks[..n]) {
        var i :| 0 <= i < n && blocks[..n][i].draft;
        assert blocks[i].draft;
      }
    }
  }

  lemma PromptedShape(h: Harness, v: HostSession, c: Command, files: seq<string>, blocks: seq<Block>, env: Env)
    requires c.Send? || c.Compact?
    ensures var p := Prompted(h, v, c, files, blocks, env);
            && Shape(p) && p.status == Running && p.runId == Some(env.runId)
            && p.projectId == v.projectId && p.revision == v.revision && p.session.id == v.session.id
  {
    KeptShape(blocks, "");
    var p := Prompted(h, v, c, files, blocks, env);
    OneMoreDraft(WithoutDrafts(blocks), p.session.blocks[|p.session.blocks| - 1]);
    hide WithoutDrafts, Drafts;
  }

  lemma DraftedShape(h: Harness, v: HostSession, c: Command)
    requires c.Draft? && Drafted(h, v, c).Some? && Shape(v)
    ensures var w := Drafted(h, v, c).value;
            Shape(w) && SameRun(v, w) && w.revision == v.revision && w.session.id == v.session.id
  {
    var w := Drafted(h, v, c).value;
    DraftsCount(v.session.blocks);
    OneMoreDraft(v.session.blocks, w.session.blocks[|w.session.blocks| - 1]);
  }

  /** A command that starts no turn leaves the run of a session and its shape. */
  lemma CommandedShape(h: Harness, e: Engine, v: HostSession, c: Command, env: Env)
    requires Lawful(h) && Shape(v) && !c.Create? && HostSteps.Commanded(h, e.switching, v, c, env).Some?
    ensures var w := HostSteps.Commanded(h, e.switching, v, c, env).value;
            && w.revision == v.revision && w.session.id == v.session.id && Shape(w)
            && (if c.Send? || c.Compact?
                then v.status != Running && v.projectId !in e.switching && w.status == Running
                     && w.runId == Some(env.runId) && w.projectId == v.projectId
                else SameRun(v, w))
  {
    hide FindDraft, WithoutId, Drafts, Prompted, Drafted, Sent, Lawful, NoBuilding;
    match c
    case Send(_, _, _, _, _, _, _) => SentShape(h, v, c, env);
    case Compact(_, _) => PromptedShape(h, v, c, [], v.session.blocks, env);
    case Draft(_, _, _, _) => DraftedShape(h, v, c);
    case RemoveDraft(_, _, id) => KeptShape(v.session.blocks, id);
    case Approve(_, _, _, request, decision) => AppliedShape(h, v.session, ApprovalResolved(request, decision));
    case _ =>
  }

  lemma AppliedShape(h: Harness, s: Session, event: HarnessEvent)
    requires Lawful(h)
    ensures KeepsShape(s, AppliedTo(h, s, event))
  {
  }

  lemma SentShape(h: Harness, v: HostSession, c: Command, env: Env)
    requires c.Send? && Sent(h, v, c, env).Some?
    ensures var p := Sent(h, v, c, env).value;
            && v.status != Running && Shape(p) && p.status == Running && p.runId == Some(env.runId)
            && p.projectId == v.projectId && p.revision == v.revision && p.session.id == v.session.id
  {
    var blocks := v.session.blocks;
    var draft := if c.draftBlockId.Some? then FindDraft(blocks, c.draftBlockId.value) else None;
    var plan := if c.planBlockId.Some? then FindPlan(blocks, c.planBlockId.value) else |blocks|;
    var files := if draft.Some? && draft.value.attachments != [] then Some(draft.value.attachments)
                 else h.attachments(c.attachments);
    var marked := if plan == |blocks| then blocks
                  else blocks[plan := blocks[plan].(plan := Some(Plan(Building, Some(blocks[plan].text))))];
    PromptedShape(h, v, c, files.value, marked, env);
    hide Prompted, FindDraft, FindPlan;
  }

  // ------------------------------------------------------- command commit

  lemma NewIdsKeep(h: Harness, e: Engine, env: Env)
    requires Inv(h, e)
    ensures Inv(h, NewIds(e, env))
  {
    hide SessionsOk, DispatchedOnce;
    TurnsUntouched(e, NewIds(e, env));
    SameDispatch(e, NewIds(e, env));
    MemoryKeeps(h, e, NewIds(e, env));
  }

  lemma ReceiptKeeps(h: Harness, e: Engine, id: string, entry: HostStores.Entry)
    requires Inv(h, e)
    ensures Inv(h, e.(tables := e.tables.(receipts := e.tables.receipts[id := entry])))
  {
    hide SessionsOk, DispatchedOnce;
    var e' := e.(tables := e.tables.(receipts := e.tables.receipts[id := entry]));
    TurnsUntouched(e, e');
    SameDispatch(e, e');
    MemoryKeeps(h, e, e');
  }

  function WithReceipt(e: Engine, c: Command, v: HostSession): Engine {
    e.(tables := e.tables.(receipts := e.tables.receipts[c.commandId := Entry(c, ReceiptOf(c, v))]))
  }

  function InputOf(c: Command, v: HostSession, env: Env): HostSession {
    v.(revision := v.revision + 1, updatedAt := if c.Create? then v.updatedAt else env.now)
  }

  lemma ReceiptFirst(e: Engine, c: Command, v: HostSession, env: Env)
    ensures Stored(e, c, v, env) == Written(WithReceipt(e, c, v), InputOf(c, v, env), HostSessions.Commanded(c))
  {
    hide Stamped, Logged;
  }

  lemma IdsFirst(e: Engine, input: HostSession, record: Record, env: Env)
    ensures Written(NewIds(e, env), input, record) == NewIds(Written(e, input, record), env)
  {
    hide Saved;
  }

  lemma RefreshKeepsTables(e: Engine, id: string)
    ensures Refreshed(e, id).tables == e.tables
  {
  }

  lemma IdsBeforeRefresh(e: Engine, id: string, env: Env)
    ensures NewIds(Refreshed(e, id), env) == Refreshed(NewIds(e, env), id)
  {
  }

  lemma IdsBeforeEffect(e: Engine, c: Command, id: string, env: Env)
    requires id in e.tables.sessions
    ensures NewIds(Effect(e, c, id, env), env) == Effect(NewIds(e, env), c, id, env)
  {
    if c.Send? || c.Compact? {
    } else if c.Cancel? && id in e.running {
    }
  }

  /** New identifiers and the receipt can be noted before the row is written. */
  lemma CommittedIs(e: Engine, c: Command, v: HostSession, env: Env)
    ensures var id, first := v.session.id, WithReceipt(NewIds(e, env), c, v);
            var written := Written(first, InputOf(c, v, env), HostSessions.Commanded(c));
            Committed(e, c, v, env) == Effect(Refreshed(written, id), c, id, env)
  {
    var id := v.session.id;
    ReceiptFirst(e, c, v, env);
    IdsFirst(WithReceipt(e, c, v), InputOf(c, v, env), HostSessions.Commanded(c), env);
    assert WithReceipt(NewIds(e, env), c, v) == NewIds(WithReceipt(e, c, v), env);
    hide Stored, Written, Refreshed, Effect, WithReceipt;
    var stored := Stored(e, c, v, env);
    IdsBeforeRefresh(stored, id, env);
    assert id in Refreshed(stored, id).tables.sessions by { RefreshKeepsTables(stored, id); }
    hide NewIds;
    IdsBeforeEffect(Refreshed(stored, id), c, id, env);
  }

  /** A command that starts no turn. */
  lemma PlainCommandKeeps(h: Harness, e: Engine, c: Command, v: HostSession, env: Env)
    requires Inv(h, e) && !c.Send? && !c.Compact? && !c.Create?
    requires v.session.id in e.tables.sessions && Quiet(e, v.session.id) && Shape(v)
    requires SameRun(e.tables.sessions[v.session.id], v) && v.revision == e.tables.sessions[v.session.id].revision
    ensures Inv(h, Committed(e, c, v, env))
  {
    CommittedIs(e, c, v, env);
    hide Inv, Committed, Written, Shape;
    NewIdsKeep(h, e, env);
    var id, first := v.session.id, WithReceipt(NewIds(e, env), c, v);
    ReceiptKeeps(h, NewIds(e, env), c.commandId, Entry(c, ReceiptOf(c, v)));
    var input := InputOf(c, v, env);
    NextInput(h, first, id, v, HostSessions.Commanded(c), env.now);
    SameShape(v, input);
    SavedKeeps(h, first, input, HostSessions.Commanded(c));
    var next := Refreshed(Written(first, input, HostSessions.Commanded(c)), id);
    if c.Cancel? && id in next.running { FlagKeeps(h, next, id, next.running[id].(cancelled := true)); }
  }

  /** A send or a compaction: the session was waiting, and a new run begins. */
  lemma StartKeeps(h: Harness, e: Engine, c: Command, v: HostSession, env: Env)
    requires Inv(h, e) && (c.Send? || c.Compact?) && c.commandId !in e.tables.receipts && env.runId !in e.used
    requires v.session.id in e.tables.sessions && e.tables.sessions[v.session.id].status != Running
    requires v.status == Running && v.runId == Some(env.runId) && Shape(v)
    requires v.revision == e.tables.sessions[v.session.id].revision && v.projectId !in e.switching
    ensures Inv(h, Committed(e, c, v, env))
    ensures v.session.id !in e.running && v.session.id !in e.live
  {
    var id, first := v.session.id, WithReceipt(NewIds(e, env), c, v);
    SessionsOkAt(h, e, id);
    CommittedIs(e, c, v, env);
    NewIdsKeep(h, e, env);
    ReceiptKeeps(h, NewIds(e, env), c.commandId, Entry(c, ReceiptOf(c, v)));
    var input := InputOf(c, v, env);
    SameShape(v, input);
    hide Inv, Committed, Written, Shape, StoredOk, RunOk, SessionOk;
    StartedRun(h, e, first, c, input, env);
  }

  lemma StartedRun(h: Harness, e: Engine, first: Engine, c: Command, input: HostSession, env: Env)
    requires Inv(h, e) && Inv(h, first) && (c.Send? || c.Compact?) && c.commandId !in e.tables.receipts
    requires env.runId !in e.used && env.runId in first.used && e.used <= first.used
    requires c.commandId in first.tables.receipts && e.tables.receipts.Keys <= first.tables.receipts.Keys
    requires first.turns == e.turns && first.running == e.running && first.retryTimers == e.retryTimers
    requires first.dispatched == e.dispatched
    requires input.session.id in first.tables.sessions && input.session.id !in first.running
    requires input.status == Running && input.runId == Some(env.runId) && Shape(input)
    requires input.revision == first.tables.sessions[input.session.id].revision + 1 && input.projectId !in first.switching
    ensures Inv(h, Effect(Refreshed(Written(first, input, HostSessions.Commanded(c)), input.session.id), c, input.session.id, env))
  {
    hide Written, StoredOk, SameSession, NextSave, Shape;
    var id, record := input.session.id, HostSessions.Commanded(c);
    SessionsOkAt(h, first, id);
    NextOfNewRun(h, first, id, input, record, env);
    WrittenIsStored(h, first, input, record);
    WrittenFrame(first, input, record);
    var written := Written(first, input, record);
    assert id !in written.live;
    var e' := Effect(Refreshed(written, id), c, id, env);
    hide RunOk, SessionOk, SessionsOk;
    StartedTurns(h, e, e', c, id, env);
    hide TurnsOk, TurnOk;
    StartedSession(h, written, e', input, env);
    StartedElsewhere(first, written, e', id);
    OneChanged(h, first, e', id);
    SameDispatch(first, e');
  }

  lemma NextOfNewRun(h: Harness, e: Engine, id: string, v: HostSession, record: Record, env: Env)
    requires StoredOk(h, e, id) && id in e.tables.sessions && v.session.id == id && !record.Events?
    requires v.revision == e.tables.sessions[id].revision + 1 && v.runId == Some(env.runId) && env.runId in e.used
    ensures NextSave(h, e, v, record)
  {
    hide GapFree, PastOk;
  }

  lemma StartedTurns(h: Harness, e: Engine, e': Engine, c: Command, id: string, env: Env)
    requires TurnsOk(e) && DispatchedOnce(e) && id !in e.running && env.runId !in e.used
    requires c.commandId !in e.tables.receipts && c.commandId in e'.tables.receipts
    requires e'.turns == e.turns[env.runId := Turn(id, c.commandId, Queued, None)]
    requires e'.running == e.running[id := Active(env.runId, false, false)] && e'.retryTimers == e.retryTimers
    requires e'.dispatched == e.dispatched && e.tables.receipts.Keys <= e'.tables.receipts.Keys
    requires e.used <= e'.used && env.runId in e'.used
    ensures TurnsOk(e')
  {
    forall r ensures TurnOk(e', r) { assert TurnOk(e, r); }
    forall r, s | r in e'.turns && s in e'.turns && r != s ensures e'.turns[r].commandId != e'.turns[s].commandId {
      assert TurnOk(e, r) && TurnOk(e, s);
    }
    forall x | x in e'.retryTimers ensures e'.retryTimers[x] in e'.turns && e'.turns[e'.retryTimers[x]].sessionId == x
      && e'.turns[e'.retryTimers[x]].phase == RetryArmed
    {
      assert TurnOk(e, e.retryTimers[x]);
    }
  }

  lemma StartedSession(h: Harness, written: Engine, e': Engine, input: HostSession, env: Env)
    requires var id := input.session.id;
             && StoredOk(h, written, id) && id in written.tables.sessions
             && Core(written.tables.sessions[id]) == Core(input) && Shape(input)
             && input.status == Running && input.runId == Some(env.runId) && input.projectId !in written.switching
             && e'.tables == written.tables && e'.past == written.past && written.used <= e'.used
             && e'.switching == written.switching
             && id in e'.running && e'.running[id].runId == env.runId
             && id in e'.live && e'.live[id] == Live(written.tables.sessions[id], [])
    ensures SessionOk(h, e', input.session.id)
  {
    ShapeOfCore(written.tables.sessions[input.session.id], input);
    hide Shape, StoredOk;
    SameRows(h, written, e', input.session.id);
  }

  lemma StartedElsewhere(e: Engine, e1: Engine, e2: Engine, id: string)
    requires SameElsewhere(e, e1, id) && SameControl(e, e1) && e1.live == e.live
    requires e2.tables == e1.tables && e2.past == e1.past && e2.switching == e1.switching && e2.used == e1.used
    requires forall x :: x != id ==> SameAt(e1.live, e2.live, x) && SameAt(e1.running, e2.running, x)
    ensures SameElsewhere(e, e2, id)
  {
    forall x | x != id ensures SameSession(e, e2, x) { assert SameSession(e, e1, x); }
  }

  lemma CreateKeeps(h: Harness, e: Engine, c: Command, env: Env)
    requires Inv(h, e) && c.Create? && Created(h, e.projects, e.switching, c, env).Some? && env.newId !in e.used
    ensures Inv(h, Committed(e, c, Created(h, e.projects, e.switching, c, env).value, env))
  {
    var v := Created(h, e.projects, e.switching, c, env).value;
    var id, first := v.session.id, WithReceipt(NewIds(e, env), c, v);
    SessionsOkAt(h, e, id);
    CommittedIs(e, c, v, env);
    NewIdsKeep(h, e, env);
    ReceiptKeeps(h, NewIds(e, env), c.commandId, Entry(c, ReceiptOf(c, v)));
    var input := InputOf(c, v, env);
    assert Shape(input) && input.status == Idle && input.revision == 1 && input.runId.None?;
    hide Inv, Created, Committed, Written, Shape, SessionOk, StoredOk, RunOk;
    CreatedRow(h, first, c, input, env);
  }

  lemma CreatedRow(h: Harness, e: Engine, c: Command, input: HostSession, env: Env)
    requires Inv(h, e) && c.Create? && input.session.id in e.used && input.session.id !in e.tables.sessions
    requires input.session.id !in e.live && input.session.id !in e.running
    requires Shape(input) && input.status != Running && input.revision == 1 && input.runId.None?
    ensures Inv(h, Effect(Refreshed(Written(e, input, HostSessions.Commanded(c)), input.session.id), c, input.session.id, env))
  {
    var id, record := input.session.id, HostSessions.Commanded(c);
    SessionsOkAt(h, e, id);
    hide SessionsOk, SessionOk, Written, StoredOk, TurnsOk, SameSession, Shape;
    WrittenIsStored(h, e, input, record);
    WrittenFrame(e, input, record);
    var written := Written(e, input, record);
    assert Refreshed(written, id) == written;
    SettledSession(h, written, written, input);
    OneChanged(h, e, written, id);
    SameDispatch(e, written);
    TurnsUntouched(e, written);
  }

  lemma IssuedKeeps(h: Harness, e: Engine, c: Command, env: Env)
    requires Lawful(h) && Inv(h, e) && Fair(e, Issue(c), env)
    ensures Inv(h, Issued(h, e, c, env).0)
  {
    hide Inv, Flushed, Created, HostSteps.Commanded, Committed, Shape, Quiet;
    if !e.closing && !Replayed(e, c) {
      if c.Create? {
        if Created(h, e.projects, e.switching, c, env).Some? && !env.saveFails { CreateKeeps(h, e, c, env); }
      } else if !FlushThrows(e, c.sessionId, env.flushFails) {
        FlushKeeps(h, e, c.sessionId, env.now, env.flushFails);
        var flushed := Flushed(e, c.sessionId, env.now, env.flushFails);
        if c.sessionId in flushed.tables.sessions {
          var v := flushed.tables.sessions[c.sessionId];
          StoredFacts(h, flushed, c.sessionId);
          if HostSteps.Commanded(h, flushed.switching, v, c, env).Some? && !env.saveFails {
            CommandedShape(h, flushed, v, c, env);
            var w := HostSteps.Commanded(h, flushed.switching, v, c, env).value;
            if c.Send? || c.Compact? { StartKeeps(h, flushed, c, w, env); } else { PlainCommandKeeps(h, flushed, c, w, env); }
          }
        }
      }
    }
  }

  lemma StoredFacts(h: Harness, e: Engine, id: string)
    requires Inv(h, e) && id in e.tables.sessions
    ensures e.tables.sessions[id].session.id == id && Shape(e.tables.sessions[id])
  {
    SessionsOkAt(h, e, id);
  }

  // ---------------------------------------------------------- everything else

  /** A change of title, branch, archive or pin, on the latest state. */
  lemma PatchKeeps(h: Harness, e: Engine, id: string, input: HostSession, record: Record)
    requires Inv(h, e) && id in e.tables.sessions && Quiet(e, id) && input.session.id == id && !record.Events?
    requires var v := e.tables.sessions[id];
             SameRun(v, input) && input.revision == v.revision + 1 && input.session.blocks == v.session.blocks
    ensures Inv(h, Refreshed(Written(e, input, record), id))
  {
    var v := e.tables.sessions[id];
    StoredFacts(h, e, id);
    assert Shape(input);
    hide Inv, Shape, Written;
    NextInput(h, e, id, input.(revision := v.revision), record, input.updatedAt);
    SavedKeeps(h, e, input, record);
  }

  lemma UpdatedKeeps(h: Harness, e: Engine, id: string, patch: Patch, env: Env)
    requires Lawful(h) && Inv(h, e)
    ensures Inv(h, Updated(e, id, patch, env))
  {
    hide Inv, Flushed, Written, Quiet;
    if !FlushThrows(e, id, env.flushFails) {
      FlushKeeps(h, e, id, env.now, env.flushFails);
      var flushed := Flushed(e, id, env.now, env.flushFails);
      if id in flushed.tables.sessions && ValidPatch(patch) && !env.saveFails {
        StoredFacts(h, flushed, id);
        PatchKeeps(h, flushed, id, Patched(flushed.tables.sessions[id], patch), Metadata(patch));
      }
    }
  }

  lemma TitledKeeps(h: Harness, e: Engine, id: string, expected: string, title: string, env: Env)
    requires Lawful(h) && Inv(h, e)
    ensures Inv(h, Titled(e, id, expected, title, env))
  {
    hide Inv, Flushed, Written, Quiet;
    if !FlushThrows(e, id, env.flushFails) {
      FlushKeeps(h, e, id, env.now, env.flushFails);
      var flushed := Flushed(e, id, env.now, env.flushFails);
      if id in flushed.tables.sessions && flushed.tables.sessions[id].session.title == expected && !env.saveFails {
        StoredFacts(h, flushed, id);
        var v := flushed.tables.sessions[id];
        PatchKeeps(h, flushed, id, v.(revision := v.revision + 1, updatedAt := env.now,
                                      session := v.session.(title := title)), GeneratedTitle);
      }
    }
  }

  lemma BranchedKeeps(h: Harness, e: Engine, id: string, branch: string, env: Env)
    requires Lawful(h) && Inv(h, e)
    ensures Inv(h, Branched(e, id, branch, env))
  {
    hide Inv, Flushed, Written, Quiet;
    if !FlushThrows(e, id, env.flushFails) {
      FlushKeeps(h, e, id, env.now, env.flushFails);
      var flushed := Flushed(e, id, env.now, env.flushFails);
      if id in flushed.tables.sessions && !env.saveFails {
        StoredFacts(h, flushed, id);
        var v := flushed.tables.sessions[id];
        PatchKeeps(h, flushed, id,
                   v.(revision := v.revision + 1, updatedAt := env.now, autoWorktreeBranch := None,
                      session := v.session.(branch := Some(branch))), GeneratedBranch(branch));
      }
    }
  }

  lemma RemovedKeeps(h: Harness, e: Engine, id: string, env: Env)
    requires Inv(h, e)
    ensures Inv(h, Removed(e, id, env))
  {
    if CanDelete(e, id) && !env.saveFails {
      var e' := Removed(e, id, env);
      SessionsOkAt(h, e, id);
      assert SessionOk(h, e', id);
      hide SessionsOk, SessionOk, TurnsOk, DispatchedOnce;
      assert SameElsewhere(e, e', id) by { forall x | x != id ensures SameSession(e, e', x) {} }
      OneChanged(h, e, e', id);
      TurnsUntouched(e, e');
      SameDispatch(e, e');
    }
  }

  lemma SwitchKeeps(h: Harness, e: Engine, projectId: string)
    requires Inv(h, e)
    ensures Inv(h, SwitchBegun(e, projectId))
  {
    if projectId !in e.switching && !IsBusy(e, projectId) {
      var e' := e.(switching := e.switching + {projectId});
      TurnsUntouched(e, e');
      SameDispatch(e, e');
      NobodyRuns(e, projectId);
      hide TurnsOk, DispatchedOnce, SessionOk, IsBusy;
      forall id ensures SessionOk(h, e', id) {
        assert SessionOk(h, e, id);
        SwitchSession(h, e, projectId, id);
      }
    }
  }

  lemma NobodyRuns(e: Engine, projectId: string)
    requires !IsBusy(e, projectId)
    ensures forall id :: id in e.tables.sessions && e.tables.sessions[id].projectId == projectId ==>
              e.tables.sessions[id].status != Running
  {
  }

  lemma SwitchSession(h: Harness, e: Engine, projectId: string, id: string)
    requires SessionOk(h, e, id)
    requires id in e.tables.sessions && e.tables.sessions[id].projectId == projectId ==>
               e.tables.sessions[id].status != Running
    ensures SessionOk(h, e.(switching := e.switching + {projectId}), id)
  {
    SameRows(h, e, e.(switching := e.switching + {projectId}), id);
    hide StoredOk, LiveOk, Shape;
  }

  lemma ClosedKeeps(h: Harness, e: Engine)
    requires Inv(h, e)
    ensures Inv(h, Closed(e))
  {
    var e' := Closed(e);
    forall s ensures TurnOk(e', s) { assert TurnOk(e, s); }
    assert TurnsOk(e');
    hide SessionsOk, TurnsOk, DispatchedOnce, TurnOk;
    SameDispatch(e, e');
    MemoryKeeps(h, e, e');
  }

  lemma DueKeeps(h: Harness, e: Engine, id: string)
    requires Inv(h, e) && id in e.retryTimers
    ensures var r := e.retryTimers[id];
            r in e.turns
            && Inv(h, e.(retryTimers := e.retryTimers - {id}, turns := e.turns[r := e.turns[r].(phase := RetryStopping)]))
  {
    var r := e.retryTimers[id];
    var e' := e.(retryTimers := e.retryTimers - {id}, turns := e.turns[r := e.turns[r].(phase := RetryStopping)]);
    forall s ensures TurnOk(e', s) { assert TurnOk(e, s); }
    assert TurnsOk(e');
    hide SessionsOk, TurnsOk, DispatchedOnce, TurnOk;
    SameDispatch(e, e');
    MemoryKeeps(h, e, e');
  }

  // ----------------------------------------------------------------- restart

  /** The state while a new process goes through the rows. */
  ghost predicate BootOk(h: Harness, e: Engine, visited: seq<string>) {
    NothingInMemory(e) && DispatchedOnce(e) && RowsOk(h, e) && Shapes(e, visited)
  }

  ghost predicate NothingInMemory(e: Engine) {
    e.running == map[] && e.live == map[] && e.turns == map[] && e.retryTimers == map[] && e.switching == {}
  }

  ghost predicate RowsOk(h: Harness, e: Engine) { forall id :: StoredOk(h, e, id) }

  ghost predicate Shapes(e: Engine, visited: seq<string>) {
    forall id :: id in e.tables.sessions ==>
      Shape(e.tables.sessions[id]) && (id in visited ==> e.tables.sessions[id].status != Running)
  }

  lemma BootedOk(h: Harness, e: Engine)
    requires Inv(h, e)
    ensures BootOk(h, Booted(e), [])
  {
    hide StoredOk, Shape, LiveOk, TurnsOk;
    forall id ensures StoredOk(h, Booted(e), id) {
      SessionsOkAt(h, e, id);
      SameRows(h, e, Booted(e), id);
    }
    forall id | id in e.tables.sessions ensures Shape(e.tables.sessions[id]) { SessionsOkAt(h, e, id); }
  }

  /** The save that recovers one row. */
  lemma RecoverSave(h: Harness, e: Engine, id: string, env: Env)
    requires Lawful(h) && StoredOk(h, e, id) && id in e.tables.sessions
    requires e.tables.sessions[id].status == Running && Shape(e.tables.sessions[id])
    ensures var e' := RecoveredOne(h, e, id, env);
            && StoredOk(h, e', id) && id in e'.tables.sessions && Shape(e'.tables.sessions[id])
            && e'.tables.sessions[id].status != Running && SameElsewhere(e, e', id) && SameControl(e, e') && e'.live == e.live
  {
    var v := e.tables.sessions[id];
    SettledShape(h, v, Interrupted, Some(RESTARTED), v.updatedAt, env.newId);
    SettledRun(h, v, Interrupted, Some(RESTARTED), v.updatedAt, env.newId);
    var value := RecoveredValue(h, v, env);
    hide SettledValue, Shape, Written, Drafts;
    var input := value.(revision := value.revision + 1, updatedAt := env.now);
    SameShape(value, input);
    NextRecovered(h, e, input);
    hide StoredOk, NextSave;
    WrittenIsStored(h, e, input, InterruptedTurn(None));
    WrittenFrame(e, input, InterruptedTurn(None));
    var e' := Written(e, input, InterruptedTurn(None));
    SavedIs(e, value, InterruptedTurn(None), env.now);
    ShapeOfCore(e'.tables.sessions[id], input);
  }

  lemma RecoverStep(h: Harness, e: Engine, visited: seq<string>, id: string, env: Env)
    requires Lawful(h) && BootOk(h, e, visited)
    ensures BootOk(h, RecoveredOne(h, e, id, env), visited + [id])
    ensures RecoveredOne(h, e, id, env).tables.sessions.Keys == e.tables.sessions.Keys
  {
    var e' := RecoveredOne(h, e, id, env);
    if id in e.tables.sessions && e.tables.sessions[id].status == Running {
      RecoverSave(h, e, id, env);
      hide RecoveredOne, StoredOk, Shape, SameSession, DispatchedOnce, RowsOk;
      RowsElsewhere(h, e, e', id);
      SameDispatch(e, e');
      ShapesStep(e, e', visited, id);
    }
  }

  lemma RowsElsewhere(h: Harness, e: Engine, e': Engine, id: string)
    requires RowsOk(h, e) && SameElsewhere(e, e', id) && StoredOk(h, e', id)
    ensures RowsOk(h, e')
  {
    hide StoredOk, SameSession;
    forall x ensures StoredOk(h, e', x) {
      assert StoredOk(h, e, x);
      if x != id { StoredElsewhere(h, e, e', x); }
    }
  }

  lemma ShapesStep(e: Engine, e': Engine, visited: seq<string>, id: string)
    requires Shapes(e, visited) && SameElsewhere(e, e', id) && id in e.tables.sessions
    requires id in e'.tables.sessions && Shape(e'.tables.sessions[id]) && e'.tables.sessions[id].status != Running
    ensures Shapes(e', visited + [id]) && e'.tables.sessions.Keys == e.tables.sessions.Keys
  {
    hide Shape, LogOf, PastOf;
    forall x ensures x in e'.tables.sessions <==> x in e.tables.sessions {
      if x != id { assert SameSession(e, e', x); }
    }
    forall x | x in e'.tables.sessions
      ensures Shape(e'.tables.sessions[x])
      ensures x in visited + [id] ==> e'.tables.sessions[x].status != Running
    {
      if x != id { assert SameSession(e, e', x); }
    }
  }

  lemma NextRecovered(h: Harness, e: Engine, input: HostSession)
    requires StoredOk(h, e, input.session.id) && input.session.id in e.tables.sessions
    requires var v := e.tables.sessions[input.session.id]; input.revision == v.revision + 1 && input.runId == v.runId
    ensures NextSave(h, e, input, InterruptedTurn(None))
  {
    hide GapFree, PastOk;
  }

  lemma StoredElsewhere(h: Harness, e: Engine, e': Engine, id: string)
    requires StoredOk(h, e, id) && SameSession(e, e', id)
    ensures StoredOk(h, e', id)
  {
    hide GapFree, PastOk, LogOf, PastOf;
  }

  lemma {:induction false} RecoverAllOk(h: Harness, e: Engine, ids: seq<string>, env: Env)
    requires Lawful(h) && BootOk(h, e, [])
    ensures BootOk(h, RecoveredAll(h, e, ids, env), ids)
    ensures RecoveredAll(h, e, ids, env).tables.sessions.Keys == e.tables.sessions.Keys
    decreases |ids|
  {
    hide BootOk, RecoveredOne;
    if ids != [] {
      var n := |ids| - 1;
      RecoverAllOk(h, e, ids[..n], env);
      RecoverStep(h, RecoveredAll(h, e, ids[..n], env), ids[..n], ids[n], env);
      assert ids == ids[..n] + [ids[n]];
    }
  }

  lemma RestartKeeps(h: Harness, e: Engine, env: Env, e': Engine)
    requires Lawful(h) && Inv(h, e) && Restarted(h, e, env, e')
    ensures Inv(h, e')
  {
    BootedOk(h, e);
    var ids: seq<string> :| (forall id :: id in ids <==> id in e.tables.sessions)
      && (forall i, j :: 0 <= i < j < |ids| ==> ids[i] != ids[j]) && e' == RecoveredAll(h, Booted(e), ids, env);
    RecoverAllOk(h, Booted(e), ids, env);
    hide RecoveredAll;
    BootIsOver(h, e', ids);
  }

  lemma BootIsOver(h: Harness, e: Engine, ids: seq<string>)
    requires BootOk(h, e, ids) && forall id :: id in e.tables.sessions ==> id in ids
    ensures Inv(h, e)
  {
    hide StoredOk, Shape, DispatchedOnce, LiveOk;
    forall id ensures SessionOk(h, e, id) {}
    assert TurnsOk(e);
  }

  // ---------------------------------------------------------------- all steps

  /** Every step keeps every invariant. */
  lemma StepKeepsInv(h: Harness, e: Engine, op: Op, env: Env, e': Engine)
    requires Lawful(h) && Inv(h, e) && Fair(e, op, env) && Step(h, e, op, env, e')
    ensures Inv(h, e')
  {
    hide Inv, Issued, Emitted, TimerFlushed, Started, Stopped, RetriedStop, Updated, Titled, Branched, Removed,
      SwitchBegun, Closed, Restarted;
    match op
    case Issue(c) => IssuedKeeps(h, e, c, env);
    case Emit(id, runId, event) => EmitKeeps(h, e, id, runId, event, env);
    case Timer(id) => TimerKeeps(h, e, id, env.now, env.flushFails);
    case StartTurn(r) => StartedKeeps(h, e, r);
    case ProviderDone(r, error) =>
      if r in e.turns && e.turns[r].phase == InProvider {
        assert e.dispatched + [] == e.dispatched;
        PhaseKeeps(h, e, r, e.turns[r].(phase := Stopping, error := error), false);
      }
    case TurnStopped(r) => if r in e.turns && e.turns[r].phase == Stopping { StoppedKeeps(h, e, r, env); }
    case RetryDue(id) => if id in e.retryTimers { DueKeeps(h, e, id); }
    case RetryStopped(r) => if r in e.turns && e.turns[r].phase == RetryStopping { RetriedKeeps(h, e, r, env); }
    case Update(id, patch) => UpdatedKeeps(h, e, id, patch, env);
    case NameTitle(id, expected, title) => TitledKeeps(h, e, id, expected, title, env);
    case NameBranch(id, branch) => BranchedKeeps(h, e, id, branch, env);
    case Delete(id) => RemovedKeeps(h, e, id, env);
    case BeginSwitch(projectId) => SwitchKeeps(h, e, projectId);
    case EndSwitch(projectId) => SwitchEndKeeps(h, e, projectId);
    case Close => ClosedKeeps(h, e);
    case Restart => RestartKeeps(h, e, env, e');
  }

  lemma SwitchEndKeeps(h: Harness, e: Engine, projectId: string)
    requires Inv(h, e)
    ensures Inv(h, e.(switching := e.switching - {projectId}))
  {
    hide SessionsOk, TurnsOk, DispatchedOnce;
    var e' := e.(switching := e.switching - {projectId});
    TurnsUntouched(e, e');
    SameDispatch(e, e');
    MemoryKeeps(h, e, e');
  }
}
