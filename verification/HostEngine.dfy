/** `host/engine.ts`: the engine over its store. Each method is one synchronous stretch
    of the original, and does what the step of that name says. */
module HostEngines {
  import opened Wrappers
  import DeltaSync
  import opened HostSessions
  import opened HostStores
  import opened HostSteps
  import HostGuarantees

  /** Every session once: the order a new process visits them in. */
  lemma ListingIsOrder(values: seq<HostSession>, sessions: map<string, HostSession>)
    requires Lists(values, sessions, sessions.Keys)
    ensures var ids := SessionIds(values);
            && (forall id :: id in ids <==> id in sessions)
            && (forall i, j :: 0 <= i < j < |ids| ==> ids[i] != ids[j])
            && forall i :: 0 <= i < |ids| ==> ids[i] in sessions && values[i] == sessions[ids[i]]
  {
  }

  class HostEngine {
    const store: HostStore
    const harness: Harness
    const projects: map<string, string>
    var running: map<string, Active>
    var live: map<string, Live>
    var retryTimers: map<string, string>
    var turns: map<string, Turn>
    var switching: set<string>
    var closing: bool

    ghost var dispatched: seq<string>
    ghost var used: set<string>
    ghost var past: map<string, map<int, HostSession>>

    ghost function State(): Engine
      reads this, store
    {
      Engine(store.Contents(), projects, running, live, retryTimers, turns, switching, closing, dispatched, used, past)
    }

    ghost predicate Valid()
      reads this, store
    {
      store.Valid() && store.undo.None?
    }

    /** A process starts on the rows of the one before: every session that was running is
        stored as interrupted. */
    constructor (store: HostStore, harness: Harness, projects: map<string, string>, env: Env, ghost before: Engine)
      requires store.Valid() && store.undo.None? && store.Contents() == before.tables && before.projects == projects
      requires !env.saveFails && StopKeepsId(harness)
      modifies store
      ensures Valid() && this.store == store && this.harness == harness
      ensures Restarted(harness, before, env, State())
    {
      this.store, this.harness, this.projects := store, harness, projects;
      running, live, retryTimers, turns, switching, closing := map[], map[], map[], map[], {}, false;
      dispatched, used, past := before.dispatched, before.used, before.past;
      new;
      var values := store.Sessions();
      ListingIsOrder(values, store.sessions);
      hide RecoveredAll, Lists, Faithful, SummariesAgree, KeyedById, StopKeepsId;
      Recover(values, env);
    }

    /** Stores every running session of a list as interrupted. */
    method Recover(values: seq<HostSession>, env: Env)
      requires Valid() && !env.saveFails && StopKeepsId(harness)
      requires Lists(values, store.sessions, store.sessions.Keys)
      modifies this`past, store
      ensures Valid() && State() == RecoveredAll(harness, old(State()), SessionIds(values), env)
    {
      hide Faithful, SummariesAgree, KeyedById, SettledValue, SavedAs, RecoveredAll, RecoveredOne, StopKeepsId;
      ghost var ids, booted := SessionIds(values), State();
      ListingIsOrder(values, store.sessions);
      RecoverNothing(harness, booted, ids[..0], env);
      for i := 0 to |values|
        invariant Valid() && State() == RecoveredAll(harness, booted, ids[..i], env)
        invariant forall j :: i <= j < |values| ==> ids[j] in store.sessions && store.sessions[ids[j]] == values[j]
      {
        var value := values[i];
        ghost var mid := State();
        RecoverOneMore(harness, booted, ids, i, env);
        RecoveredElsewhere(harness, mid, ids[i], env);
        RecoveredIs(harness, mid, ids[i], env);
        if value.status == Running {
          var saved := Save(RecoveredValue(harness, value, env), InterruptedTurn(None), env.now, false);
        }
      }
      assert ids[..|values|] == ids;
    }

    /** Saves a value as the next revision of its session. */
    method Save(value: HostSession, record: Record, now: Time, fails: bool) returns (r: Option<HostSession>)
      requires Valid()
      modifies this`past, store
      ensures Valid() && r.Some? == !fails
      ensures State() == if fails then old(State()) else SavedAs(old(State()), value, record, now)
      ensures r.Some? ==> value.session.id in store.sessions && r.value == store.sessions[value.session.id]
    {
      r := Write(value.(revision := value.revision + 1, updatedAt := now), record, fails);
    }

    /** A transaction of one save. */
    method Write(input: HostSession, record: Record, fails: bool) returns (r: Option<HostSession>)
      requires Valid()
      modifies this`past, store
      ensures Valid() && r.Some? == !fails
      ensures State() == if fails then old(State()) else Written(old(State()), input, record)
      ensures r.Some? ==> input.session.id in store.sessions && r.value == store.sessions[input.session.id]
    {
      hide Faithful, SummariesAgree, KeyedById, Saved, Stamped;
      store.Begin();
      var saved := store.Save(input, record);
      var ok := store.Commit(fails);
      if !ok {
        return None;
      }
      past := past[input.session.id := PastOf(old(State()), input.session.id)[input.revision := saved]];
      r := Some(saved);
    }

    method Flush(id: string, now: Time, fails: bool) returns (ok: bool)
      requires Valid()
      modifies this`live, this`past, store
      ensures Valid() && ok == !FlushThrows(old(State()), id, fails)
      ensures State() == Flushed(old(State()), id, now, fails)
    {
      hide Faithful, SummariesAgree, KeyedById, SavedAs;
      if id !in live || live[id].events == [] {
        return true;
      }
      var value := Save(live[id].value, Events(live[id].events), now, fails);
      if value.None? {
        return false;
      }
      live := live[id := Live(value.value, [])];
      ok := true;
    }

    /** A write that fails stops the provider of the session. */
    method ScheduledFlush(id: string, now: Time, fails: bool) returns (stops: bool)
      requires Valid()
      modifies this`live, this`past, this`running, store
      ensures Valid() && State() == TimerFlushed(old(State()), id, now, fails)
      ensures stops == FlushThrows(old(State()), id, fails)
    {
      hide Faithful, SummariesAgree, KeyedById, Flushed;
      var ok := Flush(id, now, fails);
      if !ok && id in running {
        running := running[id := running[id].(persistenceFailed := true)];
      }
      stops := !ok;
    }

    method Event(id: string, runId: string, event: HarnessEvent, env: Env) returns (stops: bool)
      requires Valid()
      modifies this`live, this`past, this`running, store
      ensures Valid() && Step(harness, old(State()), Emit(id, runId, event), env, State())
      ensures stops <==> && Accepts(old(State()), id, runId) && harness.apply(old(live)[id].value.session, event).Some?
                         && !IsBatched(event) && env.flushFails
    {
      hide Faithful, SummariesAgree, KeyedById, TimerFlushed;
      stops := false;
      if id !in live || live[id].value.runId != Some(runId) || live[id].value.status != Running {
        return;
      }
      var session := harness.apply(live[id].value.session, event);
      if session.None? {
        return;
      }
      live := live[id := Live(live[id].value.(session := session.value), live[id].events + [event])];
      if !IsBatched(event) {
        stops := ScheduledFlush(id, env.now, env.flushFails);
      }
    }

    /** The handler of a failed turn. */
    method RetrySettlement(id: string, runId: string)
      modifies this`retryTimers, this`turns
      ensures State() == Failed(old(State()), id, runId)
    {
      if closing || id in retryTimers {
        turns := turns - {runId};
        return;
      }
      retryTimers := retryTimers[id := runId];
      if runId in turns {
        turns := turns[runId := turns[runId].(phase := RetryArmed)];
      }
    }

    /** A queued turn reaches its provider, unless it was cancelled first. */
    method BeginTurn(runId: string) returns (sends: bool)
      modifies this`turns, this`dispatched
      ensures State() == Started(old(State()), runId)
      ensures sends <==> State().dispatched != old(State()).dispatched
    {
      sends := false;
      if runId !in turns || turns[runId].phase != Queued {
        return;
      }
      var turn := turns[runId];
      if closing || (turn.sessionId in running && running[turn.sessionId].cancelled) {
        turns := turns[runId := turn.(phase := Stopping)];
      } else {
        turns := turns[runId := turn.(phase := InProvider)];
        dispatched := dispatched + [turn.commandId];
        sends := true;
      }
    }

    /** The provider of a turn has answered, or thrown. */
    method ProviderReturns(runId: string, error: Option<string>)
      modifies this`turns
      ensures forall env :: Step(harness, old(State()), ProviderDone(runId, error), env, State())
    {
      if runId in turns && turns[runId].phase == InProvider {
        turns := turns[runId := turns[runId].(phase := Stopping, error := error)];
      }
    }

    /** The provider of a turn has stopped. */
    method FinishTurn(runId: string, env: Env)
      requires Valid() && runId in turns
      modifies this, store
      ensures Valid() && State() == Stopped(harness, old(State()), runId, env)
    {
      hide Faithful, SummariesAgree, KeyedById, Flushed, Failed, SettledTurn, FlushThrows;
      var id, error := turns[runId].sessionId, turns[runId].error;
      if env.stopFails {
        RetrySettlement(id, runId);
        return;
      }
      var ok := Flush(id, env.now, env.flushFails);
      if !ok {
        FlushUnchanged(old(State()), id, env.now, env.flushFails);
        RetrySettlement(id, runId);
        return;
      }
      live := live - {id};
      SettleStopped(id, runId, error, env);
    }

    method SettleStopped(id: string, runId: string, error: Option<string>, env: Env)
      requires Valid()
      modifies this, store
      ensures Valid() && State() == StoppedFlushed(harness, old(State()), id, runId, error, env)
    {
      hide Faithful, SummariesAgree, KeyedById, Failed, Freed, SettledTurn;
      var found := store.Find(id);
      if found.None? {
        RetrySettlement(id, runId);
        return;
      }
      var bound := found.value;
      if bound.runId == Some(runId) {
        var saved := SettleOwn(bound, id, error, env);
        if !saved {
          RetrySettlement(id, runId);
          return;
        }
        bound := store.sessions[id];
      }
      running := running - {id};
      LetGo(id, bound, runId, env);
    }

    /** Stores a turn as over. */
    method SettleOwn(latest: HostSession, id: string, error: Option<string>, env: Env) returns (ok: bool)
      requires Valid() && id in store.sessions
      modifies this`past, store
      ensures Valid() && ok == !env.saveFails
      ensures State() == if ok then SettledTurn(harness, old(State()), latest, id, error, env) else old(State())
    {
      hide Faithful, SummariesAgree, KeyedById, SettledValue, SavedAs, Message, SettledTurn;
      var failed := id in running && running[id].persistenceFailed;
      var cancelled := id in running && running[id].cancelled;
      var message := if closing then Some(HOST_STOPPED) else if failed then Some(STORAGE_FAILED)
                     else if cancelled then Some(STOPPED_BY_YOU) else error;
      MessageIs(State(), id, error);
      SettledTurnIs(harness, State(), latest, id, error, env);
      var status := if closing || failed then Interrupted else Idle;
      var saved := Save(SettledValue(harness, latest, status, message, env.now, env.newId),
                        Settled(error, cancelled), env.now, env.saveFails);
      ok := saved.Some?;
    }

    /** The provider is bound again for a later turn. */
    method LetGo(id: string, bound: HostSession, runId: string, env: Env)
      modifies this`retryTimers, this`turns
      ensures State() == Freed(old(State()), id, bound, runId, env)
    {
      hide Faithful, SummariesAgree, KeyedById, Failed;
      if bound.session.providerSessionId.Some? && env.bindThrows {
        RetrySettlement(id, runId);
      } else {
        turns := turns - {runId};
      }
    }

    /** The timer of a retry fires. */
    method RetryFires(id: string)
      modifies this`retryTimers, this`turns
      ensures forall env :: Step(harness, old(State()), RetryDue(id), env, State())
    {
      if id !in retryTimers {
        return;
      }
      var runId := retryTimers[id];
      retryTimers := retryTimers - {id};
      if runId in turns {
        turns := turns[runId := turns[runId].(phase := RetryStopping)];
      }
    }

    method FinishRetry(runId: string, env: Env)
      requires Valid() && runId in turns
      modifies this, store
      ensures Valid() && State() == RetriedStop(harness, old(State()), runId, env)
    {
      hide Faithful, SummariesAgree, KeyedById, Flushed, Failed, FlushThrows, InterruptedRun;
      var id := turns[runId].sessionId;
      if env.stopFails {
        RetrySettlement(id, runId);
        return;
      }
      var ok := Flush(id, env.now, env.flushFails);
      if !ok {
        FlushUnchanged(old(State()), id, env.now, env.flushFails);
        RetrySettlement(id, runId);
        return;
      }
      SettleRetry(id, runId, env);
    }

    method SettleRetry(id: string, runId: string, env: Env)
      requires Valid()
      modifies this, store
      ensures Valid() && State() == RetriedFlushed(harness, old(State()), id, runId, env)
    {
      hide Faithful, SummariesAgree, KeyedById, Failed, SettledValue, SavedAs, Freed;
      var found := store.Find(id);
      if found.None? {
        RetrySettlement(id, runId);
        return;
      }
      var latest := found.value;
      if latest.runId == Some(runId) && latest.status == Running {
        var saved := Save(SettledValue(harness, latest, Interrupted, Some(STORAGE_FAILED), latest.updatedAt, env.newId),
                          InterruptedTurn(Some("persistence failure")), env.now, env.saveFails);
        if saved.None? {
          RetrySettlement(id, runId);
          return;
        }
      }
      live := live - {id};
      running := running - {id};
      LetGo(id, latest, runId, env);
    }

    /** A client's command: durable before it has any effect, and answered from its
        receipt when it comes again. */
    method Command(c: Command, env: Env) returns (r: Result<Receipt, Refusal>)
      requires Valid()
      modifies this, store
      ensures Valid() && (State(), r) == Issued(harness, old(State()), c, env)
    {
      hide Faithful, SummariesAgree, KeyedById, Flushed, IssuedFlushed, FlushThrows;
      if closing {
        return Err(HostStopping);
      }
      var previous := store.FindReceipt(c.commandId, c);
      if previous.Err? {
        return Err(IdReused);
      }
      if previous.value.Some? {
        return Ok(previous.value.value);
      }
      if !c.Create? {
        var ok := Flush(c.sessionId, env.now, env.flushFails);
        if !ok {
          FlushUnchanged(old(State()), c.sessionId, env.now, env.flushFails);
          return Err(StorageFailed);
        }
        FlushKeepsReceipts(old(State()), c.sessionId, env.now, env.flushFails);
      }
      r := Transact(c, env);
    }

    method Transact(c: Command, env: Env) returns (r: Result<Receipt, Refusal>)
      requires Valid() && c.commandId !in store.receipts
      modifies this, store
      ensures Valid() && (State(), r) == IssuedFlushed(harness, old(State()), c, env)
    {
      hide Faithful, SummariesAgree, KeyedById, Committed, Created, HostSteps.Commanded;
      store.Begin();
      var value := Judge(c, env);
      hide Faithful, SummariesAgree, KeyedById, Outcome;
      if value.None? {
        store.Rollback();
        return Err(Rejected);
      }
      var saved := Finish(c, value.value, env);
      r := if saved then Ok(Receipt(c.commandId, value.value.session.id, value.value.revision + 1)) else Err(StorageFailed);
    }

    /** What a command makes of its session. */
    method Judge(c: Command, env: Env) returns (value: Option<HostSession>)
      requires store.Valid()
      modifies store`cache
      ensures store.Valid() && value == Outcome(harness, State(), c, env)
    {
      hide Faithful, SummariesAgree, KeyedById, Created, HostSteps.Commanded;
      if c.Create? {
        value := Created(harness, projects, switching, c, env);
      } else {
        var current := store.Find(c.sessionId);
        value := if current.None? then None else HostSteps.Commanded(harness, switching, current.value, c, env);
      }
    }

    /** Commits an accepted command and carries out its effects. */
    method Finish(c: Command, v: HostSession, env: Env) returns (ok: bool)
      requires store.Valid() && store.undo.Some? && store.undo.value.0 == store.Contents()
      requires c.commandId !in store.receipts
      modifies this, store
      ensures Valid() && ok == !env.saveFails
      ensures State() == if ok then Committed(old(State()), c, v, env) else old(State())
    {
      hide Faithful, SummariesAgree, KeyedById, Stored, Effect;
      ghost var e := State();
      ok := Commit(c, v, env);
      if ok {
        var id := v.session.id;
        if id in live {
          live := live[id := live[id].(value := store.sessions[id])];
        }
        assert State() == Refreshed(Stored(e, c, v, env), id);
        Effects(c, id, env);
      }
    }

    /** The rest of the transaction of an accepted command. */
    method Commit(c: Command, v: HostSession, env: Env) returns (ok: bool)
      requires store.Valid() && store.undo.Some? && store.undo.value.0 == store.Contents()
      requires c.commandId !in store.receipts
      modifies this`past, store
      ensures Valid() && ok == !env.saveFails
      ensures State() == if ok then Stored(old(State()), c, v, env) else old(State())
    {
      hide Faithful, SummariesAgree, KeyedById, Saved, Stamped;
      ghost var e := State();
      var input := v.(revision := v.revision + 1, updatedAt := if c.Create? then v.updatedAt else env.now);
      var saved := store.Save(input, HostSessions.Commanded(c));
      SavedKeepsReceipts(e.tables, input, HostSessions.Commanded(c));
      StampedKeepsName(e.tables, input);
      store.RecordReceipt(c, Receipt(c.commandId, saved.session.id, saved.revision));
      ok := store.Commit(env.saveFails);
      if ok {
        past := past[input.session.id := PastOf(e, input.session.id)[input.revision := saved]];
        StoredIs(e, c, v, env);
      }
    }

    /** What an accepted command starts. */
    method Effects(c: Command, id: string, env: Env)
      requires Valid() && id in store.sessions
      modifies this`running, this`live, this`turns, this`used
      ensures Valid() && State() == NewIds(Effect(old(State()), c, id, env), env)
    {
      if c.Send? || c.Compact? {
        running := running[id := Active(env.runId, false, false)];
        live := live[id := Live(store.sessions[id], [])];
        turns := turns[env.runId := Turn(id, c.commandId, Queued, None)];
      } else if c.Cancel? {
        if id in running {
          running := running[id := running[id].(cancelled := true)];
        }
      }
      used := used + {env.newId, env.runId};
    }

    method UpdateSession(id: string, patch: Patch, env: Env) returns (r: Option<Summary>)
      requires Valid()
      modifies this, store
      ensures Valid() && State() == Updated(old(State()), id, patch, env)
      ensures r.Some? <==> && !FlushThrows(old(State()), id, env.flushFails)
                           && id in Flushed(old(State()), id, env.now, env.flushFails).tables.sessions
                           && ValidPatch(patch) && !env.saveFails
      ensures r.Some? ==> id in store.sessions && r.value == SummaryOf(store.sessions[id])
    {
      hide Faithful, SummariesAgree, Flushed, FlushThrows, Patched, ValidPatch, Saved;
      var ok := Flush(id, env.now, env.flushFails);
      if !ok {
        FlushUnchanged(old(State()), id, env.now, env.flushFails);
        return None;
      }
      ghost var e := State();
      r := store.UpdateSession(id, patch, env.saveFails);
      if r.Some? {
        PatchedName(e.tables.sessions[id], patch);
        SavedHas(e.tables, Patched(e.tables.sessions[id], patch), Metadata(patch));
        ghost var input := Patched(e.tables.sessions[id], patch);
        past := past[id := PastOf(e, id)[input.revision := store.sessions[id]]];
        assert State() == Written(e, input, Metadata(patch));
        if id in live {
          live := live[id := live[id].(value := store.sessions[id])];
        }
      }
    }

    /** A generated title arrives. */
    method NameSession(id: string, expected: string, title: string, env: Env)
      requires Valid()
      modifies this, store
      ensures Valid() && State() == Titled(old(State()), id, expected, title, env)
    {
      hide Faithful, SummariesAgree, Flushed, FlushThrows, Written, Refreshed;
      var ok := Flush(id, env.now, env.flushFails);
      if !ok {
        FlushUnchanged(old(State()), id, env.now, env.flushFails);
        return;
      }
      var current := store.Find(id);
      if current.None? || current.value.session.title != expected {
        return;
      }
      var v := current.value;
      StoreEdit(id, v.(revision := v.revision + 1, updatedAt := env.now, session := v.session.(title := title)),
                GeneratedTitle, env.saveFails);
    }

    /** A generated branch name has been given to the worktree. */
    method NameBranch(id: string, branch: string, env: Env)
      requires Valid()
      modifies this, store
      ensures Valid() && State() == Branched(old(State()), id, branch, env)
    {
      hide Faithful, SummariesAgree, Flushed, FlushThrows, Written, Refreshed;
      var ok := Flush(id, env.now, env.flushFails);
      if !ok {
        FlushUnchanged(old(State()), id, env.now, env.flushFails);
        return;
      }
      var current := store.Find(id);
      if current.None? {
        return;
      }
      var v := current.value;
      StoreEdit(id, v.(revision := v.revision + 1, updatedAt := env.now, autoWorktreeBranch := None,
                       session := v.session.(branch := Some(branch))),
                GeneratedBranch(branch), env.saveFails);
    }

    /** Saves an edit and lets a live session follow. */
    method StoreEdit(id: string, input: HostSession, record: Record, fails: bool)
      requires Valid() && input.session.id == id
      modifies this`live, this`past, store
      ensures Valid()
      ensures State() == if fails then old(State()) else Refreshed(Written(old(State()), input, record), id)
    {
      hide Faithful, SummariesAgree, KeyedById, Written;
      var saved := Write(input, record, fails);
      if saved.Some? && id in live {
        live := live[id := live[id].(value := store.sessions[id])];
      }
    }

    method DeleteSession(id: string, env: Env) returns (ok: bool)
      requires Valid()
      modifies this`past, store
      ensures Valid() && State() == Removed(old(State()), id, env)
      ensures ok <==> CanDelete(old(State()), id) && !env.saveFails
    {
      ok := store.DeleteSession(id, env.saveFails);
      if ok {
        past := past - {id};
      }
    }

    /** Whether a branch switch of a project may begin now. */
    method BeginProjectSwitch(projectId: string) returns (ok: bool)
      requires Valid()
      modifies this`switching, store
      ensures Valid() && State() == SwitchBegun(old(State()), projectId)
      ensures ok <==> projectId !in old(switching) && !IsBusy(old(State()), projectId)
    {
      hide Faithful, SummariesAgree, KeyedById, SummaryOf;
      if projectId in switching {
        return false;
      }
      ghost var e := State();
      var all := store.Summaries(projectId);
      HostGuarantees.BusyIsSeenInSummaries(e, projectId);
      if exists s :: s in all && s.status == Running {
        return false;
      }
      switching := switching + {projectId};
      ok := true;
    }

    method EndProjectSwitch(projectId: string)
      modifies this`switching
      ensures State() == old(State()).(switching := old(switching) - {projectId})
    {
      switching := switching - {projectId};
    }

    method Shutdown()
      modifies this`closing, this`retryTimers, this`turns
      ensures State() == Closed(old(State()))
    {
      closing := true;
      retryTimers := map[];
      turns := map r | r in turns && turns[r].phase != RetryArmed :: turns[r];
    }
  }

  // ------------------------------------------------------------------ helpers

  lemma FlushUnchanged(e: Engine, id: string, now: Time, fails: bool)
    ensures FlushThrows(e, id, fails) ==> Flushed(e, id, now, fails) == e
  {
  }

  lemma FlushKeepsReceipts(e: Engine, id: string, now: Time, fails: bool)
    ensures Flushed(e, id, now, fails).tables.receipts == e.tables.receipts
  {
    hide Stamped, Logged;
  }

  lemma SavedKeepsReceipts(t: Tables, input: HostSession, record: Record)
    ensures Saved(t, input, record).receipts == t.receipts
  {
    hide Stamped, Logged;
  }

  lemma StampedKeepsName(t: Tables, input: HostSession)
    ensures var v := Stamped(RowOf(t, input.session.id), input);
            v.session.id == input.session.id && v.revision == input.revision
  {
    hide DeltaSync.Stamps;
  }

  lemma PatchedName(v: HostSession, patch: Patch)
    ensures Patched(v, patch).session.id == v.session.id && Patched(v, patch).revision == v.revision + 1
  {
    hide Trim;
  }

  lemma MessageIs(e: Engine, id: string, error: Option<string>)
    ensures Message(e, id, error)
            == var failed, cancelled := id in e.running && e.running[id].persistenceFailed,
                                        id in e.running && e.running[id].cancelled;
               if e.closing then Some(HOST_STOPPED) else if failed then Some(STORAGE_FAILED)
               else if cancelled then Some(STOPPED_BY_YOU) else error
  {
  }

  lemma SavedHas(t: Tables, input: HostSession, record: Record)
    ensures input.session.id in Saved(t, input, record).sessions
    ensures forall x :: x in t.sessions && x != input.session.id ==>
              x in Saved(t, input, record).sessions && Saved(t, input, record).sessions[x] == t.sessions[x]
  {
    hide Stamped, Logged;
  }

  lemma StoredIs(e: Engine, c: Command, v: HostSession, env: Env)
    ensures var input := v.(revision := v.revision + 1, updatedAt := if c.Create? then v.updatedAt else env.now);
            var id, tables := input.session.id, Saved(e.tables, input, HostSessions.Commanded(c));
            id in tables.sessions
            && Stored(e, c, v, env) ==
                 e.(tables := tables.(receipts := e.tables.receipts[c.commandId := Entry(c, ReceiptOf(c, v))]),
                    past := e.past[id := PastOf(e, id)[input.revision := tables.sessions[id]]])
  {
    hide Stamped, Logged;
  }

  lemma SettledTurnIs(h: Harness, e: Engine, latest: HostSession, id: string, error: Option<string>, env: Env)
    requires id in e.tables.sessions
    ensures var failed, cancelled := id in e.running && e.running[id].persistenceFailed,
                                     id in e.running && e.running[id].cancelled;
            var status := if e.closing || failed then Interrupted else Idle;
            SettledTurn(h, e, latest, id, error, env)
            == SavedAs(e, SettledValue(h, latest, status, Message(e, id, error), env.now, env.newId),
                       Settled(error, cancelled), env.now)
  {
    hide SettledValue, SavedAs, Message;
  }

  lemma RecoverNothing(h: Harness, e: Engine, ids: seq<string>, env: Env)
    requires ids == []
    ensures RecoveredAll(h, e, ids, env) == e
  {
  }

  lemma RecoverOneMore(h: Harness, e: Engine, ids: seq<string>, i: nat, env: Env)
    requires i < |ids|
    ensures RecoveredAll(h, e, ids[..i + 1], env) == RecoveredOne(h, RecoveredAll(h, e, ids[..i], env), ids[i], env)
  {
    hide RecoveredOne;
    assert ids[..i + 1][..i] == ids[..i];
  }

  lemma RecoveredIs(h: Harness, e: Engine, id: string, env: Env)
    ensures RecoveredOne(h, e, id, env)
            == if id in e.tables.sessions && e.tables.sessions[id].status == Running
               then SavedAs(e, RecoveredValue(h, e.tables.sessions[id], env), InterruptedTurn(None), env.now) else e
  {
  }

  lemma RecoveredElsewhere(h: Harness, e: Engine, id: string, env: Env)
    requires StopKeepsId(h) && (id in e.tables.sessions ==> e.tables.sessions[id].session.id == id)
    ensures forall x :: x in e.tables.sessions && x != id ==>
              x in RecoveredOne(h, e, id, env).tables.sessions
              && RecoveredOne(h, e, id, env).tables.sessions[x] == e.tables.sessions[x]
  {
    RecoveredIs(h, e, id, env);
    hide RecoveredOne, RecoveredValue, SavedAs;
    if id in e.tables.sessions && e.tables.sessions[id].status == Running {
      StoppedKeepsName(h, e.tables.sessions[id], env);
      SavedElsewhere(e, RecoveredValue(h, e.tables.sessions[id], env), InterruptedTurn(None), env.now);
    }
  }

  lemma SavedTables(e: Engine, v: HostSession, record: Record, now: Time)
    ensures SavedAs(e, v, record, now).tables == Saved(e.tables, v.(revision := v.revision + 1, updatedAt := now), record)
  {
    hide Saved;
  }

  lemma SavedElsewhere(e: Engine, v: HostSession, record: Record, now: Time)
    ensures forall x :: x in e.tables.sessions && x != v.session.id ==>
              x in SavedAs(e, v, record, now).tables.sessions
              && SavedAs(e, v, record, now).tables.sessions[x] == e.tables.sessions[x]
  {
    SavedTables(e, v, record, now);
    hide Saved, SavedAs;
    SavedHas(e.tables, v.(revision := v.revision + 1, updatedAt := now), record);
  }

  lemma StoppedKeepsName(h: Harness, v: HostSession, env: Env)
    requires StopKeepsId(h)
    ensures RecoveredValue(h, v, env).session.id == v.session.id
  {
    assert RecoveredValue(h, v, env).session.id == h.stop(v.session, v.updatedAt).id;
  }
}
