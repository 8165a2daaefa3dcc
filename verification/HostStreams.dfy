/** What the steps of `host/engine.ts` do to a session with a batch of events waiting: no
    accepted event is lost, doubled or reordered, and clients can follow. */
module HostStreams {
  import opened Wrappers
  import opened HostSessions
  import opened DeltaSync
  import opened HostStores
  import opened HostSteps
  import opened HostRuns
  import opened HostGuarantees

  /** A session as a write-through engine would hold it, before and after a step. */
  ghost predicate Alike(e: Engine, e': Engine, id: string) {
    && (id in e.tables.sessions <==> id in e'.tables.sessions)
    && (id in e.tables.sessions ==> Core(Effective(e', id)) == Core(Effective(e, id)))
  }

  lemma SameIsAlike(e: Engine, e': Engine, id: string)
    requires SameSession(e, e', id)
    ensures Alike(e, e', id)
  {
  }

  lemma FlushIsAlike(h: Harness, e: Engine, id: string, now: Time, fails: bool, x: string)
    requires Lawful(h) && Inv(h, e)
    ensures Alike(e, Flushed(e, id, now, fails), x) && Alike(e, TimerFlushed(e, id, now, fails), x)
  {
    FlushKeeps(h, e, id, now, fails);
    hide Inv, Flushed, Core;
    if x != id { SameIsAlike(e, Flushed(e, id, now, fails), x); }
  }

  // ------------------------------------------------------------- single steps

  predicate IsHousekeeping(op: Op) {
    op.Timer? || op.StartTurn? || op.ProviderDone? || op.RetryDue? || op.BeginSwitch? || op.EndSwitch? || op.Close?
  }

  lemma SameValuesAlike(e: Engine, e': Engine, id: string)
    requires e'.tables == e.tables && e'.live == e.live
    ensures Alike(e, e', id)
  {
  }

  lemma StartedFrame(e: Engine, r: string)
    ensures Started(e, r).tables == e.tables && Started(e, r).live == e.live && Started(e, r).running == e.running
  {
  }

  lemma SwitchFrame(e: Engine, p: string)
    ensures SwitchBegun(e, p).tables == e.tables && SwitchBegun(e, p).live == e.live && SwitchBegun(e, p).running == e.running
  {
  }

  lemma ClosedFrame(e: Engine)
    ensures Closed(e).tables == e.tables && Closed(e).live == e.live && Closed(e).running == e.running
  {
  }

  /** Timers, phases of turns, branch switches and closing change no session. */
  lemma HousekeepingChangesNothing(h: Harness, e: Engine, op: Op, env: Env, e': Engine, id: string)
    requires Lawful(h) && Inv(h, e) && Step(h, e, op, env, e') && IsHousekeeping(op)
    ensures Alike(e, e', id)
  {
    hide Inv, TimerFlushed, Alike, Started, SwitchBegun, Closed;
    match op
    case Timer(x) => FlushIsAlike(h, e, x, env.now, env.flushFails, id);
    case StartTurn(r) => StartedFrame(e, r); SameValuesAlike(e, e', id);
    case BeginSwitch(p) => SwitchFrame(e, p); SameValuesAlike(e, e', id);
    case Close => ClosedFrame(e); SameValuesAlike(e, e', id);
    case _ => SameValuesAlike(e, e', id);
  }

  function Pushed(h: Harness, e: Engine, id: string, event: HarnessEvent): Engine
    requires id in e.live && h.apply(e.live[id].value.session, event).Some?
  {
    var live := e.live[id];
    e.(live := e.live[id := Live(live.value.(session := h.apply(live.value.session, event).value), live.events + [event])])
  }

  lemma PushIsAbsorbed(h: Harness, e: Engine, id: string, event: HarnessEvent, x: string)
    requires id in e.live && id in e.tables.sessions && h.apply(e.live[id].value.session, event).Some?
    ensures var e' := Pushed(h, e, id, event);
            && (x != id ==> Alike(e, e', x))
            && Effective(e', id) == Effective(e, id).(session := AppliedTo(h, Effective(e, id).session, event))
  {
  }

  lemma AlikeChain(e: Engine, e1: Engine, e2: Engine, id: string)
    requires Alike(e, e1, id) && Alike(e1, e2, id)
    ensures Alike(e, e2, id)
  {
  }

  /** An accepted event is applied at once, whether it is written now, later, or the
      write fails. */
  lemma EventsAreAbsorbed(h: Harness, e: Engine, id: string, runId: string, event: HarnessEvent, env: Env, x: string)
    requires Lawful(h) && Inv(h, e)
    ensures var e' := Emitted(h, e, id, runId, event, env);
            if x == id && Accepts(e, id, runId) then
              && id in e.tables.sessions && id in e'.tables.sessions
              && Core(Effective(e', id))
                 == Core(Effective(e, id).(session := AppliedTo(h, Effective(e, id).session, event)))
            else Alike(e, e', x)
  {
    hide Inv, TimerFlushed, Core;
    if Accepts(e, id, runId) {
      ListenersRun(h, e, id, runId);
      if h.apply(e.live[id].value.session, event).Some? {
        AcceptedKeeps(h, e, id, event);
        var next := Pushed(h, e, id, event);
        PushIsAbsorbed(h, e, id, event, x);
        FlushIsAlike(h, next, id, env.now, env.flushFails, x);
        AlikeItself(next, x);
        if x != id {
          AlikeChain(e, next, TimerFlushed(next, id, env.now, env.flushFails), x);
        }
      }
    }
  }

  lemma AlikeItself(e: Engine, id: string)
    ensures Alike(e, e, id)
  {
  }

  lemma CommandedOfCore(h: Harness, e: Engine, e1: Engine, v: HostSession, w: HostSession, c: Command, env: Env)
    requires Core(v) == Core(w) && !c.Create? && e1.switching == e.switching
    ensures var a, b := HostSteps.Commanded(h, e.switching, v, c, env), HostSteps.Commanded(h, e1.switching, w, c, env);
            (a.Some? <==> b.Some?) && (a.Some? ==> Core(a.value) == Core(b.value))
  {
    SameParts(v, w);
    hide FindDraft, FindPlan, WithoutId, WithoutDrafts;
    match c
    case Send(_, _, _, _, _, _, _) => SentOfCore(h, v, w, c, env);
    case Compact(_, _) => PromptedOfCore(h, v, w, c, [], v.session.blocks, env);
    case _ => hide Prompted, Sent;
  }

  lemma SameParts(v: HostSession, w: HostSession)
    requires Core(v) == Core(w)
    ensures v.session == w.session && v.status == w.status && v.runId == w.runId && v.projectId == w.projectId
    ensures v == w.(revision := v.revision, createdAt := v.createdAt, updatedAt := v.updatedAt, blockRevisions := v.blockRevisions)
  {
    assert Core(v).session == v.session && Core(w).session == w.session;
  }

  lemma PromptedOfCore(h: Harness, v: HostSession, w: HostSession, c: Command, files: seq<string>, blocks: seq<Block>, env: Env)
    requires Core(v) == Core(w) && (c.Send? || c.Compact?)
    ensures Core(Prompted(h, v, c, files, blocks, env)) == Core(Prompted(h, w, c, files, blocks, env))
  {
    SameParts(v, w);
    hide WithoutDrafts;
  }

  lemma SentOfCore(h: Harness, v: HostSession, w: HostSession, c: Command, env: Env)
    requires Core(v) == Core(w) && c.Send?
    ensures Sent(h, v, c, env).Some? <==> Sent(h, w, c, env).Some?
    ensures Sent(h, v, c, env).Some? ==> Core(Sent(h, v, c, env).value) == Core(Sent(h, w, c, env).value)
  {
    SameParts(v, w);
    hide Prompted, FindDraft, FindPlan;
    forall files: seq<string>, blocks: seq<Block>
      ensures Core(Prompted(h, v, c, files, blocks, env)) == Core(Prompted(h, w, c, files, blocks, env))
    {
      PromptedOfCore(h, v, w, c, files, blocks, env);
    }
  }

  lemma WrittenCore(e: Engine, input: HostSession, record: Record)
    ensures var e' := Written(e, input, record);
            Core(e'.tables.sessions[input.session.id]) == Core(input) && e'.live == e.live
  {
    StampedFollowsCore(RowOf(e.tables, input.session.id), input);
    hide Stamped;
  }

  lemma EffectShows(e: Engine, c: Command, id: string, env: Env)
    requires id in e.tables.sessions && (id in e.live ==> e.live[id].events == [])
    ensures var e' := Effect(Refreshed(e, id), c, id, env);
            id in e'.tables.sessions && Effective(e', id) == e.tables.sessions[id]
  {
  }

  lemma CommittedCore(h: Harness, e: Engine, c: Command, v: HostSession, env: Env)
    requires Quiet(e, v.session.id)
    ensures var id, e' := v.session.id, Committed(e, c, v, env);
            id in e'.tables.sessions && Core(Effective(e', id)) == Core(v)
  {
    var id := v.session.id;
    var input := InputOf(c, v, env);
    CommittedIs(e, c, v, env);
    var first := WithReceipt(NewIds(e, env), c, v);
    assert first.live == e.live && Core(input) == Core(v);
    hide Written, Committed, WithReceipt, NewIds, Effect, Refreshed, Core;
    WrittenCore(first, input, HostSessions.Commanded(c));
    EffectShows(Written(first, input, HostSessions.Commanded(c)), c, id, env);
  }

  lemma StampedFollowsCore(previous: Option<HostSession>, input: HostSession)
    ensures Core(Stamped(previous, input)) == Core(input)
  {
    hide Stamps;
  }

  /** A command past its receipt and the flush. */
  lemma IssuedIs(h: Harness, e: Engine, c: Command, env: Env)
    requires !c.Create? && !e.closing && !Replayed(e, c)
    ensures var flushed := Flushed(e, c.sessionId, env.now, env.flushFails);
            var value := Outcome(h, flushed, c, env);
            Issued(h, e, c, env) ==
              if FlushThrows(e, c.sessionId, env.flushFails) then (e, Err(StorageFailed))
              else if value.None? then (flushed, Err(Rejected))
              else if env.saveFails then (flushed, Err(StorageFailed))
              else (Committed(flushed, c, value.value, env), Ok(ReceiptOf(c, value.value)))
  {
    hide Flushed, Outcome, Committed, FlushThrows;
  }

  lemma OutcomeOfCore(h: Harness, e: Engine, c: Command, env: Env)
    requires Lawful(h) && Inv(h, e) && !c.Create? && !FlushThrows(e, c.sessionId, env.flushFails)
    ensures var id, flushed := c.sessionId, Flushed(e, c.sessionId, env.now, env.flushFails);
            var value := Outcome(h, flushed, c, env);
            && (value.Some? <==> id in e.tables.sessions && HostSteps.Commanded(h, e.switching, Effective(e, id), c, env).Some?)
            && (value.Some? ==> value.value.session.id == id && Quiet(flushed, id))
            && (value.Some? ==> Core(value.value) == Core(HostSteps.Commanded(h, e.switching, Effective(e, id), c, env).value))
  {
    hide Inv, Flushed, HostSteps.Commanded, Core, FlushThrows, Quiet, Shape;
    var id := c.sessionId;
    FlushKeeps(h, e, id, env.now, env.flushFails);
    var flushed := Flushed(e, id, env.now, env.flushFails);
    if id in e.tables.sessions {
      var v, w := Effective(e, id), flushed.tables.sessions[id];
      StoredFacts(h, flushed, id);
      CommandedOfCore(h, e, flushed, v, w, c, env);
      if HostSteps.Commanded(h, flushed.switching, w, c, env).Some? { CommandedShape(h, flushed, w, c, env); }
    }
  }

  /** A command is judged and carried out on everything streamed so far, written or not;
      it is accepted exactly when it fits that and storage works. */
  lemma CommandsSeeEveryEvent(h: Harness, e: Engine, c: Command, env: Env)
    requires Lawful(h) && Inv(h, e) && !c.Create? && !e.closing && !Replayed(e, c)
    ensures var id, e', r := c.sessionId, Issued(h, e, c, env).0, Issued(h, e, c, env).1;
            && (r.Ok? <==> id in e.tables.sessions && HostSteps.Commanded(h, e.switching, Effective(e, id), c, env).Some?
                           && !FlushThrows(e, id, env.flushFails) && !env.saveFails)
            && (r.Ok? ==> id in e'.tables.sessions
                          && Core(Effective(e', id)) == Core(HostSteps.Commanded(h, e.switching, Effective(e, id), c, env).value))
            && (r.Err? ==> Alike(e, e', id))
  {
    hide Inv, Flushed, HostSteps.Commanded, Committed, Core, FlushThrows, Quiet, Issued, Outcome, Effective, Alike;
    var id := c.sessionId;
    IssuedIs(h, e, c, env);
    FlushIsAlike(h, e, id, env.now, env.flushFails, id);
    AlikeItself(e, id);
    var flushed := Flushed(e, id, env.now, env.flushFails);
    if !FlushThrows(e, id, env.flushFails) {
      OutcomeOfCore(h, e, c, env);
      var value := Outcome(h, flushed, c, env);
      if value.Some? { CommittedCore(h, flushed, c, value.value, env); }
    }
  }

  // ---------------------------------------------------------------- settling

  lemma SettledOfCore(h: Harness, v: HostSession, w: HostSession, status: Status, message: Option<string>, at: Time, newId: string)
    requires Core(v) == Core(w)
    ensures Core(SettledValue(h, v, status, message, at, newId)) == Core(SettledValue(h, w, status, message, at, newId))
  {
    SameParts(v, w);
    hide SettledBlocks;
  }

  lemma SavedCore(e: Engine, v: HostSession, record: Record, now: Time)
    ensures var e' := SavedAs(e, v, record, now);
            v.session.id in e'.tables.sessions && Core(e'.tables.sessions[v.session.id]) == Core(v)
    ensures SavedAs(e, v, record, now).live == e.live
  {
    var input := v.(revision := v.revision + 1, updatedAt := now);
    StampedFollowsCore(RowOf(e.tables, v.session.id), input);
    hide Stamped;
  }

  /** The turn of a stopped provider settles everything its session streamed. */
  lemma SettlementSeesEveryEvent(h: Harness, e: Engine, r: string, env: Env)
    requires Lawful(h) && Inv(h, e) && r in e.turns && e.turns[r].phase == Stopping && !env.bindThrows
    ensures var id, e' := e.turns[r].sessionId, Stopped(h, e, r, env);
            && id in e.tables.sessions && id in e.running && id in e'.tables.sessions
            && if env.stopFails || FlushThrows(e, id, env.flushFails) || env.saveFails
               then Alike(e, e', id) && id in e'.running
               else
                 var status := if e.closing || e.running[id].persistenceFailed then Interrupted else Idle;
                 && id !in e'.running && r !in e'.turns
                 && Core(e'.tables.sessions[id])
                    == Core(SettledValue(h, Effective(e, id), status, Message(e, id, e.turns[r].error), env.now, env.newId))
  {
    hide Inv, Flushed, SettledValue, Message, SavedAs, Core, Quiet, Failed;
    var id, error := e.turns[r].sessionId, e.turns[r].error;
    TurnRuns(h, e, r);
    FailedIsAlike(e, id, r);
    FlushKeeps(h, e, id, env.now, env.flushFails);
    var flushed := Flushed(e, id, env.now, env.flushFails);
    var gone := flushed.(live := flushed.live - {id});
    FailedIsAlike(gone, id, r);
    if !env.stopFails && !FlushThrows(e, id, env.flushFails) {
      TurnRuns(h, flushed, r);
      if !env.saveFails {
        var status := if e.closing || e.running[id].persistenceFailed then Interrupted else Idle;
        SameMessage(e, gone, id, error);
        var latest, message := gone.tables.sessions[id], Message(gone, id, error);
        SettledRun(h, latest, status, message, env.now, env.newId);
        SettledKeepsId(h, latest, status, message, env.now, env.newId);
        SavedCore(gone, SettledValue(h, latest, status, message, env.now, env.newId),
                  Settled(error, gone.running[id].cancelled), env.now);
        SettledOfCore(h, latest, Effective(e, id), status, message, env.now, env.newId);
      }
    }
  }

  lemma SettledKeepsId(h: Harness, v: HostSession, status: Status, message: Option<string>, at: Time, newId: string)
    requires Lawful(h)
    ensures SettledValue(h, v, status, message, at, newId).session.id == v.session.id
  {
    assert KeepsShape(v.session, h.stop(v.session, at));
    hide SettledBlocks;
  }

  lemma SameMessage(e: Engine, e': Engine, id: string, error: Option<string>)
    requires e'.closing == e.closing && e'.running == e.running
    ensures Message(e', id, error) == Message(e, id, error)
  {
  }

  lemma FailedIsAlike(e: Engine, id: string, r: string)
    ensures var e' := Failed(e, id, r);
            e'.tables == e.tables && e'.live == e.live && e'.running == e.running
  {
  }

  /** When a session was last saved, once a batch of it is written. */
  function LastSave(e: Engine, id: string, now: Time): Time
    requires id in e.tables.sessions
  {
    if id in e.live && e.live[id].events != [] then now else e.tables.sessions[id].updatedAt
  }

  lemma FlushedTime(h: Harness, e: Engine, id: string, now: Time)
    requires Lawful(h) && Inv(h, e) && id in e.tables.sessions
    ensures var flushed := Flushed(e, id, now, false);
            id in flushed.tables.sessions && flushed.tables.sessions[id].updatedAt == LastSave(e, id, now)
  {
    SessionsOkAt(h, e, id);
    if id in e.live && e.live[id].events != [] {
      FlushInput(h, e, id, now);
      hide Inv, SessionOk, NextSave, Flushed, Written;
      var v := e.live[id].value;
      FlushedIs(e, id, now);
      WrittenTime(e, v.(revision := v.revision + 1, updatedAt := now), Events(e.live[id].events));
    }
  }

  lemma WrittenTime(e: Engine, input: HostSession, record: Record)
    ensures Written(e, input, record).tables.sessions[input.session.id].updatedAt == input.updatedAt
  {
    hide Stamps, Logged;
  }

  /** A retry after a failure does the same, as an interruption at the last save. */
  lemma RetrySeesEveryEvent(h: Harness, e: Engine, r: string, env: Env)
    requires Lawful(h) && Inv(h, e) && r in e.turns && e.turns[r].phase == RetryStopping && !env.bindThrows
    ensures var id, e' := e.turns[r].sessionId, RetriedStop(h, e, r, env);
            && id in e.tables.sessions && id in e.running && id in e'.tables.sessions
            && if env.stopFails || FlushThrows(e, id, env.flushFails) || env.saveFails
               then Alike(e, e', id) && id in e'.running
               else
                 && id !in e'.running && r !in e'.turns
                 && Core(e'.tables.sessions[id])
                    == Core(SettledValue(h, Effective(e, id), Interrupted, Some(STORAGE_FAILED),
                                         LastSave(e, id, env.now), env.newId))
  {
    hide Inv, Flushed, SettledValue, SavedAs, Core, Quiet, Failed, LastSave;
    var id := e.turns[r].sessionId;
    TurnRuns(h, e, r);
    FailedIsAlike(e, id, r);
    FlushKeeps(h, e, id, env.now, env.flushFails);
    var flushed := Flushed(e, id, env.now, env.flushFails);
    FailedIsAlike(flushed, id, r);
    if !env.stopFails && !FlushThrows(e, id, env.flushFails) {
      TurnRuns(h, flushed, r);
      if !env.saveFails {
        FlushedTime(h, e, id, env.now);
        SameFlush(e, id, env.now, env.flushFails);
        var latest := flushed.tables.sessions[id];
        SettledKeepsId(h, latest, Interrupted, Some(STORAGE_FAILED), latest.updatedAt, env.newId);
        SavedCore(flushed, SettledValue(h, latest, Interrupted, Some(STORAGE_FAILED), latest.updatedAt, env.newId),
                  InterruptedTurn(Some("persistence failure")), env.now);
        SettledOfCore(h, latest, Effective(e, id), Interrupted, Some(STORAGE_FAILED), latest.updatedAt, env.newId);
      }
    }
  }

  lemma SameFlush(e: Engine, id: string, now: Time, fails: bool)
    requires !FlushThrows(e, id, fails)
    ensures Flushed(e, id, now, fails) == Flushed(e, id, now, false)
  {
  }

  // ------------------------------------------------------------------- edits

  /** The result of an edit does not depend on what saving adds. */
  ghost predicate OfCore(edit: HostSession -> Option<HostSession>) {
    forall v, w :: Core(v) == Core(w) ==>
      && (edit(v).Some? <==> edit(w).Some?)
      && (edit(v).Some? ==> Core(edit(v).value) == Core(edit(w).value) && edit(v).value.session.id == v.session.id)
  }

  /** `engine.ts` writes what waits and then edits what is stored. */
  function FlushedEdit(e: Engine, id: string, edit: HostSession -> Option<HostSession>, record: Record, env: Env): Engine {
    if FlushThrows(e, id, env.flushFails) then e
    else Edited(Flushed(e, id, env.now, env.flushFails), id, edit, record, env)
  }

  /** An edit keeps everything the session streamed, and every other session. */
  lemma EditsSeeEveryEvent(h: Harness, e: Engine, id: string, edit: HostSession -> Option<HostSession>, record: Record,
                           env: Env, x: string)
    requires Lawful(h) && Inv(h, e) && OfCore(edit)
    ensures var e' := FlushedEdit(e, id, edit, record, env);
            if x == id && id in e.tables.sessions && !env.saveFails && !FlushThrows(e, id, env.flushFails)
               && edit(Effective(e, id)).Some?
            then id in e'.tables.sessions && Core(Effective(e', id)) == Core(edit(Effective(e, id)).value)
            else Alike(e, e', x)
  {
    hide Inv, Flushed, Core, FlushThrows, Quiet, Alike, Written, Effective;
    FlushIsAlike(h, e, id, env.now, env.flushFails, x);
    AlikeItself(e, x);
    if !FlushThrows(e, id, env.flushFails) {
      FlushKeeps(h, e, id, env.now, env.flushFails);
      var flushed := Flushed(e, id, env.now, env.flushFails);
      if id in e.tables.sessions && !env.saveFails {
        var v := flushed.tables.sessions[id];
        StoredFacts(h, flushed, id);
        assert edit(v).Some? <==> edit(Effective(e, id)).Some?;
        if edit(v).Some? {
          EditShows(flushed, id, edit(v).value, record, x);
          if x != id { AlikeChain(e, flushed, FlushedEdit(e, id, edit, record, env), x); }
        }
      }
    }
  }

  lemma PatchedOfCore(v: HostSession, w: HostSession, patch: Patch)
    requires Core(v) == Core(w)
    ensures Core(Patched(v, patch)) == Core(Patched(w, patch)) && Patched(v, patch).session.id == v.session.id
  {
    SameParts(v, w);
    hide Trim;
  }

  lemma EditShows(e: Engine, id: string, input: HostSession, record: Record, x: string)
    requires Quiet(e, id) && input.session.id == id
    ensures var e' := Refreshed(Written(e, input, record), id);
            && id in e'.tables.sessions && Core(Effective(e', id)) == Core(input)
            && (x != id ==> Alike(e, e', x))
  {
    WrittenCore(e, input, record);
    hide Written, Core, Alike;
    WriteElsewhere(e, input, record, x);
    RefreshElsewhere(Written(e, input, record), id, x);
    if x != id { AlikeChain(e, Written(e, input, record), Refreshed(Written(e, input, record), id), x); }
  }

  lemma WriteElsewhere(e: Engine, input: HostSession, record: Record, x: string)
    ensures x != input.session.id ==> Alike(e, Written(e, input, record), x)
  {
    WrittenFrame(e, input, record);
    hide Written, Core;
    if x != input.session.id { assert SameSession(e, Written(e, input, record), x); }
  }

  lemma RefreshElsewhere(e: Engine, id: string, x: string)
    ensures x != id ==> Alike(e, Refreshed(e, id), x)
  {
  }

  // ------------------------------------------------------------------ the log

  /** A logged batch rebuilds the revision it was saved as from the one before. */
  lemma LoggedEventsRebuild(h: Harness, states: seq<Engine>, ops: seq<Op>, envs: seq<Env>, i: nat, id: string, k: int)
    requires Lawful(h) && Run(h, states, ops, envs) && Inv(h, states[0]) && i < |states|
    requires id in states[i].tables.sessions
    requires 1 <= k < states[i].tables.sessions[id].revision
    ensures var e := states[i];
            && k in PastOf(e, id) && k + 1 in PastOf(e, id)
            && (k + 1 in LogOf(e.tables, id) <==> k + 1 >= e.tables.sessions[id].revision - LOGGED_REVISIONS)
            && (k + 1 in LogOf(e.tables, id) && LogOf(e.tables, id)[k + 1].Events? ==>
                  Rebuilds(h, PastOf(e, id)[k], PastOf(e, id)[k + 1], LogOf(e.tables, id)[k + 1].events))
  {
    InvHolds(h, states, ops, envs, i);
    SessionsOkAt(h, states[i], id);
    hide SessionsOk, Follows, Rebuilds;
    PastReaches(h, PastOf(states[i], id), LogOf(states[i].tables, id), states[i].tables.sessions[id], k);
    PastReaches(h, PastOf(states[i], id), LogOf(states[i].tables, id), states[i].tables.sessions[id], k + 1);
    assert Linked(h, PastOf(states[i], id), LogOf(states[i].tables, id), k);
  }

  lemma {:induction false} PastReaches(h: Harness, p: map<int, HostSession>, log: map<int, Record>, v: HostSession, k: int)
    requires PastOk(h, p, log, v) && 1 <= k <= v.revision
    ensures k in p
    decreases k
  {
    hide Linked, Follows;
    if k > 1 { PastReaches(h, p, log, v, k - 1); }
  }

  // ------------------------------------------------------------------ clients

  function SavedValues(p: map<int, HostSession>, revision: int): seq<HostSession>
    requires revision >= 1 && forall k :: 1 <= k <= revision ==> k in p
  {
    seq(revision, i requires 0 <= i < revision => p[i + 1])
  }

  lemma PastIsAHistory(h: Harness, p: map<int, HostSession>, log: map<int, Record>, v: HostSession)
    requires PastOk(h, p, log, v) && v.revision >= 1
    ensures forall k :: 1 <= k <= v.revision ==> k in p
    ensures var past := SavedValues(p, v.revision);
            History(past) && past[0].revision == 1 && past[|past| - 1] == v
  {
    forall k | 1 <= k <= v.revision ensures k in p { PastReaches(h, p, log, v, k); }
    var past := SavedValues(p, v.revision);
    FirstSaveIsAHistory(None, p[1]);
    assert History([p[1]]);
    hide Follows;
    forall k | 0 <= k < |past| - 1 ensures Follows(Some(past[k]), past[k + 1]) {
      assert Linked(h, p, log, k + 1);
    }
    assert past[0] == [p[1]][0];
  }

  /** What a client of this session can hold: nothing, or the snapshot of any revision
      that was ever saved. */
  ghost predicate ClientHolds(e: Engine, id: string, known: Option<HostSession>) {
    known.Some? ==> known.value.revision in PastOf(e, id)
                    && known.value == Shown(PastOf(e, id)[known.value.revision])
  }

  /** At every point of every run, one sync gives every such client the current session;
      with a delta, exactly if blocks that share an id are equal. */
  lemma ClientsConvergeIff(h: Harness, states: seq<Engine>, ops: seq<Op>, envs: seq<Env>, i: nat, id: string,
                           known: Option<HostSession>)
    requires Lawful(h) && Run(h, states, ops, envs) && Inv(h, states[0]) && i < |states|
    requires id in states[i].tables.sessions && ClientHolds(states[i], id, known)
    ensures var v := states[i].tables.sessions[id];
            var sync := SyncOf(v, if known.Some? then Some(known.value.revision) else None);
            && Apply(known, sync).Ok?
            && (Apply(known, sync) == Ok(Shown(v)) <==> !sync.Delta? || IdsDecide(v.session.blocks))
  {
    InvHolds(h, states, ops, envs, i);
    SessionsOkAt(h, states[i], id);
    var v, p := states[i].tables.sessions[id], PastOf(states[i], id);
    PastIsAHistory(h, p, LogOf(states[i].tables, id), v);
    var past := SavedValues(p, v.revision);
    hide Inv, SyncOf, Apply, IdsDecide, History;
    SyncConvergesIff(past, |past| - 1, known);
  }
}
