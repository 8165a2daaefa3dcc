/** `host/engine.ts` where binding a provider again may throw after its turn has settled: a
    retry of that turn is left behind, and what it may do to a later one. */
module HostRebinding {
  import opened Wrappers
  import opened HostSessions
  import opened DeltaSync
  import opened HostStores
  import opened HostSteps
  import opened HostRuns
  import opened HostGuarantees
  import opened HostStreams
  import opened HostFailures

  /** Generated identifiers are new. */
  ghost predicate FreshIds(e: Engine, env: Env) {
    env.newId !in e.used && env.runId !in e.used && env.newId != env.runId
  }

  // ------------------------------------------------- the maps of waiting turns

  /** The engine with other waiting turns and retries. */
  function With(e: Engine, turns: map<string, Turn>, timers: map<string, string>): Engine {
    e.(turns := turns, retryTimers := timers)
  }

  /** `e'` leaves the waiting turns alone, hands out nothing and starts no run. */
  predicate Calmly(e: Engine, e': Engine) {
    && e'.turns == e.turns && e'.retryTimers == e.retryTimers && e'.closing == e.closing && OldRuns(e, e')
    && e'.dispatched == e.dispatched
  }

  /** The flags of a run that goes on are kept, but a write may fail. */
  predicate GoesOn(e: Engine, e': Engine, id: string) {
    && id in e'.running && id in e.running && e'.running[id].runId == e.running[id].runId
    && e'.running[id].cancelled == e.running[id].cancelled
    && (e.running[id].persistenceFailed ==> e'.running[id].persistenceFailed)
  }

  predicate OldRuns(e: Engine, e': Engine) {
    e.used <= e'.used && forall id :: id in e'.running ==> GoesOn(e, e', id)
  }

  lemma SameRuns(e: Engine, e': Engine)
    requires e'.running == e.running && e.used <= e'.used
    ensures OldRuns(e, e')
  {
  }

  lemma Chain(e: Engine, e1: Engine, e2: Engine)
    requires Calmly(e, e1) && Calmly(e1, e2)
    ensures Calmly(e, e2)
  {
  }

  lemma WriteWith(e: Engine, input: HostSession, record: Record, t: map<string, Turn>, m: map<string, string>)
    ensures Written(With(e, t, m), input, record) == With(Written(e, input, record), t, m)
  {
    hide Saved;
  }

  lemma WriteIsCalm(e: Engine, input: HostSession, record: Record)
    ensures Calmly(e, Written(e, input, record))
  {
    hide Saved;
  }

  lemma SaveWith(e: Engine, v: HostSession, record: Record, now: Time, t: map<string, Turn>, m: map<string, string>)
    ensures SavedAs(With(e, t, m), v, record, now) == With(SavedAs(e, v, record, now), t, m)
  {
    hide Written, With;
    WriteWith(e, v.(revision := v.revision + 1, updatedAt := now), record, t, m);
  }

  lemma SaveIsCalm(e: Engine, v: HostSession, record: Record, now: Time)
    ensures Calmly(e, SavedAs(e, v, record, now))
  {
    hide Written, Calmly;
    WriteIsCalm(e, v.(revision := v.revision + 1, updatedAt := now), record);
  }

  lemma FlushWith(e: Engine, id: string, now: Time, fails: bool, t: map<string, Turn>, m: map<string, string>)
    ensures Flushed(With(e, t, m), id, now, fails) == With(Flushed(e, id, now, fails), t, m)
    ensures FlushThrows(With(e, t, m), id, fails) == FlushThrows(e, id, fails)
  {
    hide SavedAs;
    if id in e.live { SaveWith(e, e.live[id].value, Events(e.live[id].events), now, t, m); }
  }

  lemma FlushCalmly(e: Engine, id: string, now: Time, fails: bool)
    ensures Calmly(e, Flushed(e, id, now, fails))
  {
    hide SavedAs;
    if id in e.live { SaveIsCalm(e, e.live[id].value, Events(e.live[id].events), now); }
  }

  lemma TimerWith(e: Engine, id: string, now: Time, fails: bool, t: map<string, Turn>, m: map<string, string>)
    ensures TimerFlushed(With(e, t, m), id, now, fails) == With(TimerFlushed(e, id, now, fails), t, m)
  {
    FlushWith(e, id, now, fails, t, m);
    hide Flushed, FlushThrows;
  }

  lemma TimerCalmly(e: Engine, id: string, now: Time, fails: bool)
    ensures Calmly(e, TimerFlushed(e, id, now, fails))
  {
    FlushCalmly(e, id, now, fails);
    hide Flushed, FlushThrows;
  }

  lemma EmitWith(h: Harness, e: Engine, id: string, runId: string, event: HarnessEvent, env: Env,
                 t: map<string, Turn>, m: map<string, string>)
    ensures Emitted(h, With(e, t, m), id, runId, event, env) == With(Emitted(h, e, id, runId, event, env), t, m)
  {
    WithIsAlike(e, t, m);
    hide TimerFlushed, With;
    if Accepts(e, id, runId) && h.apply(e.live[id].value.session, event).Some? {
      var next := Pushed(h, e, id, event);
      PushWith(h, e, id, event, t, m);
      TimerWith(next, id, env.now, env.flushFails, t, m);
      PushedIs(h, e, id, runId, event, env);
      PushedIs(h, With(e, t, m), id, runId, event, env);
      hide Emitted, Pushed;
    }
  }

  lemma PushWith(h: Harness, e: Engine, id: string, event: HarnessEvent, t: map<string, Turn>, m: map<string, string>)
    requires id in e.live && h.apply(e.live[id].value.session, event).Some?
    ensures id in With(e, t, m).live && Pushed(h, With(e, t, m), id, event) == With(Pushed(h, e, id, event), t, m)
  {
  }

  lemma PushedIs(h: Harness, e: Engine, id: string, runId: string, event: HarnessEvent, env: Env)
    requires Accepts(e, id, runId) && h.apply(e.live[id].value.session, event).Some?
    ensures var next := Pushed(h, e, id, event);
            Emitted(h, e, id, runId, event, env)
            == if IsBatched(event) then next else TimerFlushed(next, id, env.now, env.flushFails)
  {
    hide TimerFlushed;
  }

  lemma EmitCalmly(h: Harness, e: Engine, id: string, runId: string, event: HarnessEvent, env: Env)
    ensures Calmly(e, Emitted(h, e, id, runId, event, env))
  {
    hide TimerFlushed, Calmly;
    ItselfIsCalm(e);
    if Accepts(e, id, runId) && h.apply(e.live[id].value.session, event).Some? {
      var next := Pushed(h, e, id, event);
      TimerCalmly(next, id, env.now, env.flushFails);
      PushIsCalm(h, e, id, event);
      Chain(e, next, TimerFlushed(next, id, env.now, env.flushFails));
    }
  }

  lemma ItselfIsCalm(e: Engine)
    ensures Calmly(e, e)
  {
  }

  lemma PushIsCalm(h: Harness, e: Engine, id: string, event: HarnessEvent)
    requires id in e.live && h.apply(e.live[id].value.session, event).Some?
    ensures Calmly(e, Pushed(h, e, id, event))
  {
  }

  lemma EditWith(e: Engine, id: string, edit: HostSession -> Option<HostSession>, record: Record, env: Env,
                 t: map<string, Turn>, m: map<string, string>)
    ensures Edited(With(e, t, m), id, edit, record, env) == With(Edited(e, id, edit, record, env), t, m)
  {
    hide Written, Refreshed, With;
    WithIsAlike(e, t, m);
    if id in e.tables.sessions && edit(e.tables.sessions[id]).Some? {
      var input := edit(e.tables.sessions[id]).value;
      WriteWith(e, input, record, t, m);
      RefreshWith(Written(e, input, record), id, t, m);
    }
  }

  lemma RefreshWith(e: Engine, id: string, t: map<string, Turn>, m: map<string, string>)
    ensures Refreshed(With(e, t, m), id) == With(Refreshed(e, id), t, m)
  {
  }

  lemma RefreshIsCalm(e: Engine, id: string)
    ensures Calmly(e, Refreshed(e, id))
  {
  }

  lemma EditCalmly(e: Engine, id: string, edit: HostSession -> Option<HostSession>, record: Record, env: Env)
    ensures Calmly(e, Edited(e, id, edit, record, env))
  {
    hide Written, Refreshed, Calmly;
    ItselfIsCalm(e);
    if id in e.tables.sessions && edit(e.tables.sessions[id]).Some? {
      var input := edit(e.tables.sessions[id]).value;
      WriteIsCalm(e, input, record);
      RefreshIsCalm(Written(e, input, record), id);
      Chain(e, Written(e, input, record), Refreshed(Written(e, input, record), id));
    }
  }

  lemma FlushedEditWith(e: Engine, id: string, edit: HostSession -> Option<HostSession>, record: Record, env: Env,
                        t: map<string, Turn>, m: map<string, string>)
    ensures FlushedEdit(With(e, t, m), id, edit, record, env) == With(FlushedEdit(e, id, edit, record, env), t, m)
    ensures Calmly(e, FlushedEdit(e, id, edit, record, env))
  {
    hide Edited, Flushed, FlushThrows, Calmly, With;
    var flushed := Flushed(e, id, env.now, env.flushFails);
    FlushWith(e, id, env.now, env.flushFails, t, m);
    FlushCalmly(e, id, env.now, env.flushFails);
    EditWith(flushed, id, edit, record, env, t, m);
    EditCalmly(flushed, id, edit, record, env);
    ItselfIsCalm(e);
    Chain(e, flushed, Edited(flushed, id, edit, record, env));
  }

  // ------------------------------------------------------------------ commands

  /** An accepted command adds its turn. */
  function Added(t: map<string, Turn>, c: Command, id: string, env: Env): map<string, Turn> {
    if c.Send? || c.Compact? then t[env.runId := Turn(id, c.commandId, Queued, None)] else t
  }

  /** `e'` has no new waiting turn but that of a command. */
  predicate Adds(e: Engine, e': Engine, c: Command, id: string, env: Env) {
    && e'.turns == Added(e.turns, c, id, env) && e'.retryTimers == e.retryTimers && e'.closing == e.closing
    && e'.dispatched == e.dispatched && e.used <= e'.used
    && forall x :: x in e'.running ==> GoesOn(e, e', x) || (x == id && Marks(e, e', c, id, env))
  }

  /** A command starts a run, or marks one as cancelled. */
  predicate Marks(e: Engine, e': Engine, c: Command, id: string, env: Env) {
    && id in e'.running
    && (|| ((c.Send? || c.Compact?) && e'.running[id] == Active(env.runId, false, false))
        || (c.Cancel? && id in e.running && e'.running[id].runId == e.running[id].runId && e'.running[id].cancelled
            && (e.running[id].persistenceFailed ==> e'.running[id].persistenceFailed)))
  }

  lemma CommitWith(e: Engine, c: Command, v: HostSession, env: Env, t: map<string, Turn>, m: map<string, string>)
    ensures Committed(With(e, t, m), c, v, env) == With(Committed(e, c, v, env), Added(t, c, v.session.id, env), m)
  {
    var id, input, record := v.session.id, InputOf(c, v, env), HostSessions.Commanded(c);
    CommittedIs(e, c, v, env);
    CommittedIs(With(e, t, m), c, v, env);
    NotedWith(e, c, v, env, t, m);
    InputIsNamed(c, v, env);
    hide Committed, InputOf, WithReceipt, NewIds, Written, Refreshed, Effect, With, Added;
    var first := WithReceipt(NewIds(e, env), c, v);
    var written := Written(first, input, record);
    WriteWith(first, input, record, t, m);
    RefreshWith(written, id, t, m);
    RefreshKeepsTables(written, id);
    EffectWith(Refreshed(written, id), c, id, env, t, m);
  }

  lemma NotedWith(e: Engine, c: Command, v: HostSession, env: Env, t: map<string, Turn>, m: map<string, string>)
    ensures WithReceipt(NewIds(With(e, t, m), env), c, v) == With(WithReceipt(NewIds(e, env), c, v), t, m)
    ensures Calmly(e, WithReceipt(NewIds(e, env), c, v))
  {
  }

  lemma InputIsNamed(c: Command, v: HostSession, env: Env)
    ensures InputOf(c, v, env).session.id == v.session.id
  {
  }

  lemma EffectWith(e: Engine, c: Command, id: string, env: Env, t: map<string, Turn>, m: map<string, string>)
    requires id in e.tables.sessions
    ensures id in With(e, t, m).tables.sessions
    ensures Effect(With(e, t, m), c, id, env) == With(Effect(e, c, id, env), Added(t, c, id, env), m)
  {
  }

  lemma EffectAdds(e: Engine, c: Command, id: string, env: Env)
    requires id in e.tables.sessions
    ensures Adds(e, Effect(e, c, id, env), c, id, env)
  {
  }

  lemma CommitAdds(e: Engine, c: Command, v: HostSession, env: Env)
    ensures Adds(e, Committed(e, c, v, env), c, v.session.id, env)
  {
    var id, input, record := v.session.id, InputOf(c, v, env), HostSessions.Commanded(c);
    CommittedIs(e, c, v, env);
    NotedWith(e, c, v, env, e.turns, e.retryTimers);
    InputIsNamed(c, v, env);
    hide Committed, InputOf, WithReceipt, NewIds, Written, Refreshed, Effect, Calmly, Adds;
    var first := WithReceipt(NewIds(e, env), c, v);
    var written := Written(first, input, record);
    WriteIsCalm(first, input, record);
    RefreshIsCalm(written, id);
    RefreshKeepsTables(written, id);
    EffectAdds(Refreshed(written, id), c, id, env);
    Chain(e, first, written);
    Chain(e, written, Refreshed(written, id));
    CalmlyAdds(e, Refreshed(written, id), Committed(e, c, v, env), c, id, env);
  }

  lemma CalmlyAdds(e: Engine, e1: Engine, e2: Engine, c: Command, id: string, env: Env)
    requires Calmly(e, e1) && Adds(e1, e2, c, id, env)
    ensures Adds(e, e2, c, id, env)
  {
  }

  /** A command does the same whatever turns wait, and adds its own. */
  lemma IssueWith(h: Harness, e: Engine, c: Command, env: Env, t: map<string, Turn>, m: map<string, string>)
    returns (added: bool, id: string)
    ensures var e' := Issued(h, e, c, env).0;
            && Issued(h, With(e, t, m), c, env).0 == With(e', if added then Added(t, c, id, env) else t, m)
            && if added then Adds(e, e', c, id, env) else Calmly(e, e')
  {
    hide Flushed, FlushThrows, IssuedFlushed, Adds, Calmly;
    added, id := false, "";
    ItselfIsCalm(e);
    WithIsAlike(e, t, m);
    if !e.closing && !Replayed(e, c) {
      FlushWith(e, if c.Create? then "" else c.sessionId, env.now, env.flushFails, t, m);
      if c.Create? {
        added, id := JudgeWith(h, e, c, env, t, m);
      } else if !FlushThrows(e, c.sessionId, env.flushFails) {
        var flushed := Flushed(e, c.sessionId, env.now, env.flushFails);
        FlushCalmly(e, c.sessionId, env.now, env.flushFails);
        added, id := JudgeWith(h, flushed, c, env, t, m);
        if added {
          CalmlyAdds(e, flushed, IssuedFlushed(h, flushed, c, env).0, c, id, env);
        } else {
          Chain(e, flushed, IssuedFlushed(h, flushed, c, env).0);
        }
      }
    }
  }

  lemma WithIsAlike(e: Engine, t: map<string, Turn>, m: map<string, string>)
    ensures var w := With(e, t, m);
            w.tables == e.tables && w.projects == e.projects && w.switching == e.switching && w.closing == e.closing
            && w.live == e.live && w.running == e.running
  {
  }

  lemma OutcomeWith(h: Harness, e: Engine, c: Command, env: Env, t: map<string, Turn>, m: map<string, string>)
    ensures Outcome(h, With(e, t, m), c, env) == Outcome(h, e, c, env)
  {
    WithIsAlike(e, t, m);
    hide With, Created, HostSteps.Commanded;
  }

  lemma JudgeWith(h: Harness, e: Engine, c: Command, env: Env, t: map<string, Turn>, m: map<string, string>)
    returns (added: bool, id: string)
    ensures var e' := IssuedFlushed(h, e, c, env).0;
            && IssuedFlushed(h, With(e, t, m), c, env).0 == With(e', if added then Added(t, c, id, env) else t, m)
            && if added then Adds(e, e', c, id, env) else Calmly(e, e')
  {
    OutcomeWith(h, e, c, env, t, m);
    hide Outcome, Committed, Added, With, Adds, Calmly;
    var value := Outcome(h, e, c, env);
    added, id := value.Some? && !env.saveFails, if value.Some? then value.value.session.id else "";
    ItselfIsCalm(e);
    if added {
      CommitWith(e, c, value.value, env, t, m);
      CommitAdds(e, c, value.value, env);
    }
  }

  // ------------------------------------------------------------ ends of turns

  /** How far the end of a turn gets, and whether it stops before the provider is bound
      again. */
  function StopEnd(h: Harness, e: Engine, r: string, env: Env): (Engine, bool)
    requires r in e.turns
  {
    var id := e.turns[r].sessionId;
    if env.stopFails || FlushThrows(e, id, env.flushFails) then (e, true)
    else
      var flushed := Flushed(e, id, env.now, env.flushFails);
      SettleEnd(h, flushed.(live := flushed.live - {id}), id, r, e.turns[r].error, env)
  }

  function SettleEnd(h: Harness, e: Engine, id: string, r: string, error: Option<string>, env: Env): (Engine, bool) {
    if id !in e.tables.sessions then (e, true)
    else
      var latest := e.tables.sessions[id];
      if latest.runId == Some(r) && env.saveFails then (e, true)
      else
        var saved := if latest.runId == Some(r) then SettledTurn(h, e, latest, id, error, env) else e;
        (saved.(running := saved.running - {id}), false)
  }

  function RetryEnd(h: Harness, e: Engine, r: string, env: Env): (Engine, bool)
    requires r in e.turns
  {
    var id := e.turns[r].sessionId;
    if env.stopFails || FlushThrows(e, id, env.flushFails) then (e, true)
    else InterruptEnd(h, Flushed(e, id, env.now, env.flushFails), id, r, env)
  }

  function InterruptEnd(h: Harness, e: Engine, id: string, r: string, env: Env): (Engine, bool) {
    if id !in e.tables.sessions then (e, true)
    else
      var latest := e.tables.sessions[id];
      if StillRuns(latest, r) && env.saveFails then (e, true)
      else
        var saved := if StillRuns(latest, r) then InterruptedRun(h, e, latest, env) else e;
        (saved.(live := saved.live - {id}, running := saved.running - {id}), false)
  }

  function Quietly(env: Env): Env { env.(bindThrows := false) }

  /** The turn ends in its failure handler, or is over. */
  predicate Ends(k: Engine, fails: bool, id: string, r: string, e': Engine, quiet: Engine) {
    && (e' == Failed(k, id, r) || (!fails && e' == Done(k, r)))
    && quiet == if fails then Failed(k, id, r) else Done(k, r)
  }

  lemma StopEnds(h: Harness, e: Engine, r: string, env: Env)
    requires r in e.turns
    ensures var (k, fails) := StopEnd(h, e, r, env);
            Ends(k, fails, e.turns[r].sessionId, r, Stopped(h, e, r, env), Stopped(h, e, r, Quietly(env)))
  {
    hide Flushed, FlushThrows, Failed, Done, StoppedFlushed, SettleEnd;
    var id := e.turns[r].sessionId;
    if !env.stopFails && !FlushThrows(e, id, env.flushFails) {
      var flushed := Flushed(e, id, env.now, env.flushFails);
      SettleEnds(h, flushed.(live := flushed.live - {id}), id, r, e.turns[r].error, env);
    }
  }

  lemma SettleEnds(h: Harness, e: Engine, id: string, r: string, error: Option<string>, env: Env)
    ensures var (k, fails) := SettleEnd(h, e, id, r, error, env);
            Ends(k, fails, id, r, StoppedFlushed(h, e, id, r, error, env), StoppedFlushed(h, e, id, r, error, Quietly(env)))
  {
    if id in e.tables.sessions { SettlesQuietly(h, e, e.tables.sessions[id], id, error, env); }
    hide Failed, Done, SettledTurn;
  }

  lemma SettlesQuietly(h: Harness, e: Engine, latest: HostSession, id: string, error: Option<string>, env: Env)
    requires id in e.tables.sessions
    ensures SettledTurn(h, e, latest, id, error, Quietly(env)) == SettledTurn(h, e, latest, id, error, env)
  {
    hide SettledValue, SavedAs, Message;
  }

  lemma RetryEnds(h: Harness, e: Engine, r: string, env: Env)
    requires r in e.turns
    ensures var (k, fails) := RetryEnd(h, e, r, env);
            Ends(k, fails, e.turns[r].sessionId, r, RetriedStop(h, e, r, env), RetriedStop(h, e, r, Quietly(env)))
  {
    hide Flushed, FlushThrows, Failed, Done, RetriedFlushed, InterruptEnd;
    var id := e.turns[r].sessionId;
    if !env.stopFails && !FlushThrows(e, id, env.flushFails) {
      InterruptEnds(h, Flushed(e, id, env.now, env.flushFails), id, r, env);
    }
  }

  lemma InterruptEnds(h: Harness, e: Engine, id: string, r: string, env: Env)
    ensures var (k, fails) := InterruptEnd(h, e, id, r, env);
            Ends(k, fails, id, r, RetriedFlushed(h, e, id, r, env), RetriedFlushed(h, e, id, r, Quietly(env)))
  {
    hide Failed, Done, SavedAs, SettledValue;
  }

  // The ends do not look at waiting turns either.

  lemma SettleWith(h: Harness, e: Engine, id: string, r: string, error: Option<string>, env: Env,
                   t: map<string, Turn>, m: map<string, string>)
    ensures var (k, fails) := SettleEnd(h, e, id, r, error, env);
            && SettleEnd(h, With(e, t, m), id, r, error, env) == (With(k, t, m), fails)
            && Calmly(e, k) && (!fails ==> id !in k.running)
  {
    hide SettledTurn, With, Calmly;
    ItselfIsCalm(e);
    WithIsAlike(e, t, m);
    if id in e.tables.sessions {
      var latest := e.tables.sessions[id];
      SettledWith(h, e, latest, id, error, env, t, m);
      var saved := if latest.runId == Some(r) then SettledTurn(h, e, latest, id, error, env) else e;
      OverWith(saved, id, env, t, m);
      Chain(e, saved, saved.(running := saved.running - {id}));
    }
  }

  lemma OverWith(e: Engine, id: string, env: Env, t: map<string, Turn>, m: map<string, string>)
    ensures var w := With(e, t, m);
            w.(running := w.running - {id}) == With(e.(running := e.running - {id}), t, m)
    ensures Calmly(e, e.(running := e.running - {id}))
  {
  }

  lemma SettledWith(h: Harness, e: Engine, latest: HostSession, id: string, error: Option<string>, env: Env,
                    t: map<string, Turn>, m: map<string, string>)
    requires id in e.tables.sessions
    ensures id in With(e, t, m).tables.sessions
    ensures SettledTurn(h, With(e, t, m), latest, id, error, env) == With(SettledTurn(h, e, latest, id, error, env), t, m)
    ensures Calmly(e, SettledTurn(h, e, latest, id, error, env))
  {
    var value, record := EndValue(h, e, latest, id, error, env), EndRecord(e, id, error);
    SettledIs(h, e, latest, id, error, env);
    SettledIs(h, With(e, t, m), latest, id, error, env);
    SameEnd(h, e, latest, id, error, env, t, m);
    hide With, EndValue, EndRecord, SavedAs, SettledTurn, Calmly;
    SaveWith(e, value, record, env.now, t, m);
    SaveIsCalm(e, value, record, env.now);
  }

  function EndValue(h: Harness, e: Engine, latest: HostSession, id: string, error: Option<string>, env: Env): HostSession {
    var failed := id in e.running && e.running[id].persistenceFailed;
    SettledValue(h, latest, if e.closing || failed then Interrupted else Idle, Message(e, id, error), env.now, env.newId)
  }

  function EndRecord(e: Engine, id: string, error: Option<string>): Record {
    Settled(error, id in e.running && e.running[id].cancelled)
  }

  lemma SettledIs(h: Harness, e: Engine, latest: HostSession, id: string, error: Option<string>, env: Env)
    requires id in e.tables.sessions
    ensures SettledTurn(h, e, latest, id, error, env)
            == SavedAs(e, EndValue(h, e, latest, id, error, env), EndRecord(e, id, error), env.now)
  {
    hide SettledValue, SavedAs, Message;
  }

  lemma SameEnd(h: Harness, e: Engine, latest: HostSession, id: string, error: Option<string>, env: Env,
                t: map<string, Turn>, m: map<string, string>)
    ensures EndValue(h, With(e, t, m), latest, id, error, env) == EndValue(h, e, latest, id, error, env)
    ensures EndRecord(With(e, t, m), id, error) == EndRecord(e, id, error)
    ensures id in e.tables.sessions ==> id in With(e, t, m).tables.sessions
  {
    WithIsAlike(e, t, m);
    hide With, SettledValue;
  }

  lemma StopWith(h: Harness, e: Engine, r: string, env: Env, t: map<string, Turn>, m: map<string, string>)
    requires r in e.turns && r in t && t[r] == e.turns[r]
    ensures var (k, fails) := StopEnd(h, e, r, env);
            && StopEnd(h, With(e, t, m), r, env) == (With(k, t, m), fails)
            && Calmly(e, k) && (!fails ==> e.turns[r].sessionId !in k.running)
  {
    hide Flushed, FlushThrows, SettleEnd, Calmly;
    var id, error := e.turns[r].sessionId, e.turns[r].error;
    ItselfIsCalm(e);
    FlushWith(e, id, env.now, env.flushFails, t, m);
    FlushCalmly(e, id, env.now, env.flushFails);
    var flushed := Flushed(e, id, env.now, env.flushFails);
    var gone := flushed.(live := flushed.live - {id});
    ForgottenIsCalm(flushed, id);
    SettleWith(h, gone, id, r, error, env, t, m);
    if !env.stopFails && !FlushThrows(e, id, env.flushFails) {
      Chain(e, flushed, gone);
      Chain(e, gone, SettleEnd(h, gone, id, r, error, env).0);
    }
  }

  lemma ForgottenIsCalm(e: Engine, id: string)
    ensures Calmly(e, e.(live := e.live - {id}))
  {
  }

  lemma InterruptWith(h: Harness, e: Engine, id: string, r: string, env: Env, t: map<string, Turn>, m: map<string, string>)
    ensures var (k, fails) := InterruptEnd(h, e, id, r, env);
            && InterruptEnd(h, With(e, t, m), id, r, env) == (With(k, t, m), fails)
            && Calmly(e, k) && (!fails ==> id !in k.running)
  {
    ItselfIsCalm(e);
    WithIsAlike(e, t, m);
    hide SettledValue, SavedAs;
    if id in e.tables.sessions {
      var latest := e.tables.sessions[id];
      var value := SettledValue(h, latest, Interrupted, Some(STORAGE_FAILED), latest.updatedAt, env.newId);
      SaveWith(e, value, InterruptedTurn(Some("persistence failure")), env.now, t, m);
      SaveIsCalm(e, value, InterruptedTurn(Some("persistence failure")), env.now);
    }
  }

  lemma RetryWith(h: Harness, e: Engine, r: string, env: Env, t: map<string, Turn>, m: map<string, string>)
    requires r in e.turns && r in t && t[r] == e.turns[r]
    ensures var (k, fails) := RetryEnd(h, e, r, env);
            && RetryEnd(h, With(e, t, m), r, env) == (With(k, t, m), fails)
            && Calmly(e, k) && (!fails ==> e.turns[r].sessionId !in k.running)
  {
    hide Flushed, FlushThrows, InterruptEnd, Calmly;
    var id := e.turns[r].sessionId;
    ItselfIsCalm(e);
    FlushWith(e, id, env.now, env.flushFails, t, m);
    FlushCalmly(e, id, env.now, env.flushFails);
    var flushed := Flushed(e, id, env.now, env.flushFails);
    InterruptWith(h, flushed, id, r, env, t, m);
    if !env.stopFails && !FlushThrows(e, id, env.flushFails) {
      Chain(e, flushed, InterruptEnd(h, flushed, id, r, env).0);
    }
  }

  // -------------------------------------------------------- retries left behind

  function Timers(m: map<string, string>, left: set<string>): map<string, string> {
    map id | id in m && m[id] !in left :: m[id]
  }

  /** The engine without the turns left behind and their timers. */
  function Shadow(e: Engine, left: set<string>): Engine {
    With(e, e.turns - left, Timers(e.retryTimers, left))
  }

  /** A turn that is over and stored, or gone, but still to be retried. */
  ghost predicate IsLeft(e: Engine, r: string) {
    && r in e.turns && r in e.used && (e.turns[r].phase == RetryArmed || e.turns[r].phase == RetryStopping)
    && (e.turns[r].sessionId in e.running ==> e.running[e.turns[r].sessionId].runId != r)
  }

  ghost predicate AllLeft(e: Engine, left: set<string>) {
    && (forall r :: r in left ==> IsLeft(e, r))
    && forall id :: id in e.retryTimers && e.retryTimers[id] in left ==>
         e.turns[e.retryTimers[id]].sessionId == id && e.turns[e.retryTimers[id]].phase == RetryArmed
  }

  /** Everything an engine keeps where binding never throws, but for some turns that are
      over and wait for a retry. */
  ghost predicate LooseInv(h: Harness, e: Engine, left: set<string>) { Inv(h, Shadow(e, left)) && AllLeft(e, left) }

  lemma CalmKeepsLeft(e: Engine, e': Engine, env: Env, left: set<string>)
    requires AllLeft(e, left) && Calmly(e, e') && env.runId !in e.used
    ensures AllLeft(e', left)
  {
    forall r | r in left ensures IsLeft(e', r) { assert IsLeft(e, r); }
  }

  lemma AddKeepsLeft(e: Engine, e': Engine, c: Command, id: string, env: Env, left: set<string>)
    requires AllLeft(e, left) && Adds(e, e', c, id, env) && env.runId !in e.used
    ensures AllLeft(e', left) && e'.turns - left == Added(e.turns - left, c, id, env)
  {
    forall r | r in left ensures IsLeft(e', r) && r != env.runId { assert IsLeft(e, r); }
    assert env.runId !in left;
    assert e'.turns - left == Added(e.turns - left, c, id, env);
  }

  lemma IssueStep(h: Harness, e: Engine, c: Command, env: Env, left: set<string>)
    requires Lawful(h) && LooseInv(h, e, left) && Fair(e, Issue(c), env)
    ensures LooseInv(h, Issued(h, e, c, env).0, left)
  {
    hide Issued, Inv, Lawful, AllLeft, Added, Adds, Calmly;
    var t, m, e' := e.turns - left, Timers(e.retryTimers, left), Issued(h, e, c, env).0;
    var added, id := IssueWith(h, e, c, env, t, m);
    StepKeepsInv(h, Shadow(e, left), Issue(c), env, Issued(h, Shadow(e, left), c, env).0);
    if added {
      AddKeepsLeft(e, e', c, id, env, left);
      AddsWhat(e, e', c, id, env);
    } else {
      CalmKeepsLeft(e, e', env, left);
      CalmlyWhat(e, e');
    }
  }

  lemma AddsWhat(e: Engine, e': Engine, c: Command, id: string, env: Env)
    requires Adds(e, e', c, id, env)
    ensures e'.retryTimers == e.retryTimers
  {
  }

  lemma CalmlyWhat(e: Engine, e': Engine)
    requires Calmly(e, e')
    ensures e'.turns == e.turns && e'.retryTimers == e.retryTimers
  {
  }

  /** A step that does the same whatever turns wait, and leaves them. */
  lemma CalmStep(h: Harness, e: Engine, op: Op, env: Env, e': Engine, left: set<string>)
    requires Lawful(h) && LooseInv(h, e, left) && Fair(e, op, env) && Calmly(e, e')
    requires Step(h, Shadow(e, left), op, env, With(e', e.turns - left, Timers(e.retryTimers, left)))
    ensures LooseInv(h, e', left)
  {
    hide Inv, Lawful, Step, AllLeft, Calmly;
    CalmlyWhat(e, e');
    CalmKeepsLeft(e, e', env, left);
    StepKeepsInv(h, Shadow(e, left), op, env, Shadow(e', left));
  }

  // ------------------------------------------------------- single steps, loosely

  lemma QuietStep(h: Harness, e: Engine, op: Op, env: Env, e': Engine, left: set<string>)
    requires Lawful(h) && LooseInv(h, e, left) && FreshIds(e, env) && Step(h, e, op, env, e')
    requires op.Emit? || op.Timer? || op.Update? || op.NameTitle? || op.NameBranch?
    ensures LooseInv(h, e', left)
  {
    hide Inv, Lawful, AllLeft, Calmly, Emitted, TimerFlushed, FlushedEdit, Flushed, FlushThrows, Edited;
    var t, m := e.turns - left, Timers(e.retryTimers, left);
    hide With, Timers;
    match op
    case Emit(id, runId, event) =>
      EmitWith(h, e, id, runId, event, env, t, m);
      EmitCalmly(h, e, id, runId, event, env);
      CalmStep(h, e, op, env, e', left);
    case Timer(id) =>
      TimerWith(e, id, env.now, env.flushFails, t, m);
      TimerCalmly(e, id, env.now, env.flushFails);
      CalmStep(h, e, op, env, e', left);
    case _ =>
      EditStep(h, e, op, env, e', left);
  }

  lemma EditStep(h: Harness, e: Engine, op: Op, env: Env, e': Engine, left: set<string>)
    requires Lawful(h) && LooseInv(h, e, left) && FreshIds(e, env) && Step(h, e, op, env, e')
    requires op.Update? || op.NameTitle? || op.NameBranch?
    ensures LooseInv(h, e', left)
  {
    hide Inv, Lawful, AllLeft, Calmly, With, Timers, Flushed, FlushThrows, Edited, Patched, ValidPatch, NewTitle, NewBranch;
    var t, m := e.turns - left, Timers(e.retryTimers, left);
    match op
    case Update(id, patch) =>
      FlushedEditWith(e, id, v => if ValidPatch(patch) then Some(Patched(v, patch)) else None, Metadata(patch), env, t, m);
      CalmStep(h, e, op, env, e', left);
    case NameTitle(id, expected, title) =>
      FlushedEditWith(e, id, v => NewTitle(v, expected, title, env), GeneratedTitle, env, t, m);
      CalmStep(h, e, op, env, e', left);
    case NameBranch(id, branch) =>
      FlushedEditWith(e, id, v => Some(NewBranch(v, branch, env)), GeneratedBranch(branch), env, t, m);
      CalmStep(h, e, op, env, e', left);
  }

  lemma OwnTurnIsNotLeft(e: Engine, left: set<string>, r: string)
    requires AllLeft(e, left)
    ensures r in left ==> r in e.turns && (e.turns[r].phase == RetryArmed || e.turns[r].phase == RetryStopping)
    ensures r in left ==> r in e.used
  {
    if r in left { assert IsLeft(e, r); }
  }

  /** Another state of one waiting turn. */
  function Moved(e: Engine, r: string, turn: Turn): Engine { e.(turns := e.turns[r := turn]) }

  lemma MovedShadow(e: Engine, left: set<string>, r: string, turn: Turn)
    requires r !in left
    ensures Shadow(Moved(e, r, turn), left) == Moved(Shadow(e, left), r, turn)
  {
    assert e.turns[r := turn] - left == (e.turns - left)[r := turn];
  }

  /** A turn that is not left behind moves on. */
  lemma StartStep(h: Harness, e: Engine, r: string, env: Env, left: set<string>)
    requires Lawful(h) && LooseInv(h, e, left)
    ensures LooseInv(h, Started(e, r), left)
  {
    OwnTurnIsNotLeft(e, left, r);
    if r in e.turns && e.turns[r].phase == Queued {
      var turn := Started(e, r).turns[r];
      var sends := turn.phase == InProvider;
      var moved := Moved(e, r, turn);
      StartedIs(e, r);
      StartedIs(Shadow(e, left), r);
      MovedShadow(e, left, r, turn);
      assert Started(Shadow(e, left), r).turns[r] == turn;
      hide Inv, Started, Lawful, AllLeft;
      StartedKeeps(h, Shadow(e, left), r);
      PhaseKeepsLeft(e, Started(e, r), left, r);
    }
  }

  lemma StartedIs(e: Engine, r: string)
    requires r in e.turns && e.turns[r].phase == Queued
    ensures var e' := Started(e, r);
            && r in e'.turns
            && e' == Moved(e, r, e'.turns[r]).(dispatched := if e'.turns[r].phase == InProvider
                                                             then e.dispatched + [e.turns[r].commandId] else e.dispatched)
  {
  }

  lemma AnswerStep(h: Harness, e: Engine, r: string, error: Option<string>, env: Env, e': Engine, left: set<string>)
    requires Lawful(h) && LooseInv(h, e, left) && FreshIds(e, env) && Step(h, e, ProviderDone(r, error), env, e')
    ensures LooseInv(h, e', left)
  {
    OwnTurnIsNotLeft(e, left, r);
    if r in e.turns && e.turns[r].phase == InProvider {
      var turn := e.turns[r].(phase := Stopping, error := error);
      var s := Shadow(e, left);
      assert e' == Moved(e, r, turn);
      assert r in s.turns && s.turns[r] == e.turns[r];
      MovedShadow(e, left, r, turn);
      hide Inv, Lawful, AllLeft, Shadow;
      StepKeepsInv(h, s, ProviderDone(r, error), env, Moved(s, r, turn));
      PhaseKeepsLeft(e, e', left, r);
    }
  }

  lemma PhaseKeepsLeft(e: Engine, e': Engine, left: set<string>, r: string)
    requires AllLeft(e, left) && r !in left && e'.used == e.used && e'.running == e.running && e'.retryTimers == e.retryTimers
    requires e'.turns == if r in e.turns && r in e'.turns then e.turns[r := e'.turns[r]] else e.turns
    ensures AllLeft(e', left)
  {
    forall x | x in left ensures IsLeft(e', x) { assert IsLeft(e, x); }
  }

  lemma RemoveWith(e: Engine, id: string, env: Env, t: map<string, Turn>, m: map<string, string>)
    ensures Removed(With(e, t, m), id, env) == With(Removed(e, id, env), t, m)
  {
    hide Deleted;
  }

  lemma RemoveCalmly(e: Engine, id: string, env: Env)
    ensures Calmly(e, Removed(e, id, env))
  {
    var e' := Removed(e, id, env);
    assert e'.running == e.running && e'.used == e.used && e'.turns == e.turns && e'.retryTimers == e.retryTimers;
    assert e'.closing == e.closing && e'.dispatched == e.dispatched;
    hide Removed, OldRuns;
    SameRuns(e, e');
  }

  lemma SwitchWith(e: Engine, p: string, env: Env, t: map<string, Turn>, m: map<string, string>)
    ensures SwitchBegun(With(e, t, m), p) == With(SwitchBegun(e, p), t, m)
    ensures Calmly(e, SwitchBegun(e, p))
  {
    BusyWith(e, t, m, p);
    hide IsBusy;
  }

  lemma BusyWith(e: Engine, t: map<string, Turn>, m: map<string, string>, p: string)
    ensures IsBusy(With(e, t, m), p) <==> IsBusy(e, p)
  {
    assert With(e, t, m).tables.sessions == e.tables.sessions;
  }

  lemma EndSwitchWith(e: Engine, p: string, env: Env, t: map<string, Turn>, m: map<string, string>)
    ensures var w := With(e, t, m);
            w.(switching := w.switching - {p}) == With(e.(switching := e.switching - {p}), t, m)
    ensures Calmly(e, e.(switching := e.switching - {p}))
  {
  }

  /** A session goes, or a project is held or given back. */
  lemma OtherStep(h: Harness, e: Engine, op: Op, env: Env, e': Engine, left: set<string>)
    requires Lawful(h) && LooseInv(h, e, left) && FreshIds(e, env) && Step(h, e, op, env, e')
    requires op.Delete? || op.BeginSwitch? || op.EndSwitch?
    ensures LooseInv(h, e', left)
  {
    var t, m := e.turns - left, Timers(e.retryTimers, left);
    hide Inv, Lawful, AllLeft, Calmly, With, Timers, Removed, SwitchBegun;
    match op
    case Delete(id) =>
      RemoveWith(e, id, env, t, m);
      RemoveCalmly(e, id, env);
      CalmStep(h, e, op, env, e', left);
    case BeginSwitch(p) =>
      SwitchWith(e, p, env, t, m);
      CalmStep(h, e, op, env, e', left);
    case EndSwitch(p) =>
      EndSwitchWith(e, p, env, t, m);
      CalmStep(h, e, op, env, e', left);
  }

  /** Closing drops armed retries, also those left behind. */
  lemma CloseStep(h: Harness, e: Engine, env: Env, left: set<string>) returns (left': set<string>)
    requires Lawful(h) && LooseInv(h, e, left)
    ensures LooseInv(h, Closed(e), left')
  {
    left' := set r | r in left && r in Closed(e).turns;
    hide Inv, Lawful, AllLeft, Closed;
    ClosedKeeps(h, Shadow(e, left));
    CloseShadow(e, left, left');
    CloseKeepsLeft(e, left, left');
  }

  lemma CloseShadow(e: Engine, left: set<string>, left': set<string>)
    requires left' == set r | r in left && r in Closed(e).turns
    ensures Shadow(Closed(e), left') == Closed(Shadow(e, left))
  {
    var t := Closed(e).turns - left';
    assert t.Keys == Closed(Shadow(e, left)).turns.Keys;
    assert t == Closed(Shadow(e, left)).turns;
    assert Timers(map[], left') == map[];
  }

  lemma CloseKeepsLeft(e: Engine, left: set<string>, left': set<string>)
    requires AllLeft(e, left) && left' == set r | r in left && r in Closed(e).turns
    ensures AllLeft(Closed(e), left')
  {
    forall r | r in left' ensures IsLeft(Closed(e), r) { assert IsLeft(e, r); }
  }

  lemma RestartStep(h: Harness, e: Engine, env: Env, e': Engine, left: set<string>)
    requires Lawful(h) && LooseInv(h, e, left) && Restarted(h, e, env, e')
    ensures LooseInv(h, e', {})
  {
    ShadowRestarts(h, e, env, e', left);
    hide Restarted, Inv, Lawful;
    RestartKeeps(h, Shadow(e, left), env, e');
    NothingLeft(e');
  }

  lemma ShadowRestarts(h: Harness, e: Engine, env: Env, e': Engine, left: set<string>)
    requires Restarted(h, e, env, e')
    ensures Restarted(h, Shadow(e, left), env, e')
  {
    var s := Shadow(e, left);
    assert Booted(s) == Booted(e) && s.tables == e.tables;
    hide RecoveredAll, Booted, Shadow;
    var ids: seq<string> :| (forall id :: id in ids <==> id in e.tables.sessions)
      && (forall i, j :: 0 <= i < j < |ids| ==> ids[i] != ids[j]) && e' == RecoveredAll(h, Booted(e), ids, env);
    assert e' == RecoveredAll(h, Booted(s), ids, env);
  }

  lemma NothingLeft(e: Engine)
    ensures Shadow(e, {}) == e && AllLeft(e, {})
  {
    assert e.turns - {} == e.turns && Timers(e.retryTimers, {}) == e.retryTimers;
  }

  /** The timer of a retry fires. */
  function Due(e: Engine, id: string): Engine
    requires id in e.retryTimers && e.retryTimers[id] in e.turns
  {
    var r := e.retryTimers[id];
    e.(retryTimers := e.retryTimers - {id}, turns := e.turns[r := e.turns[r].(phase := RetryStopping)])
  }

  lemma DueStep(h: Harness, e: Engine, id: string, env: Env, e': Engine, left: set<string>)
    requires Lawful(h) && LooseInv(h, e, left) && Step(h, e, RetryDue(id), env, e')
    ensures LooseInv(h, e', left)
  {
    if id in e.retryTimers {
      TimersAreTurns(h, e, left, id);
      assert e' == Due(e, id);
      hide Inv, Lawful, AllLeft;
      DueShadow(h, e, left, id);
      DueKeepsLeft(e, left, id);
    }
  }

  lemma TimersAreTurns(h: Harness, e: Engine, left: set<string>, id: string)
    requires LooseInv(h, e, left) && id in e.retryTimers
    ensures e.retryTimers[id] in e.turns && e.turns[e.retryTimers[id]].sessionId == id
    ensures e.turns[e.retryTimers[id]].phase == RetryArmed
  {
    OwnTurnIsNotLeft(e, left, e.retryTimers[id]);
    if e.retryTimers[id] !in left {
      assert id in Shadow(e, left).retryTimers;
    }
  }

  lemma DueShadow(h: Harness, e: Engine, left: set<string>, id: string)
    requires Lawful(h) && Inv(h, Shadow(e, left)) && id in e.retryTimers && e.retryTimers[id] in e.turns
    ensures Inv(h, Shadow(Due(e, id), left))
  {
    hide Inv, Shadow, Due;
    if e.retryTimers[id] in left {
      LeftDueIsHidden(e, left, id);
    } else {
      OwnDueShows(e, left, id);
      DueKeeps(h, Shadow(e, left), id);
      DueIs(Shadow(e, left), id);
    }
  }

  lemma DueIs(e: Engine, id: string)
    requires id in e.retryTimers && e.retryTimers[id] in e.turns
    ensures var r := e.retryTimers[id];
            Due(e, id) == e.(retryTimers := e.retryTimers - {id}, turns := e.turns[r := e.turns[r].(phase := RetryStopping)])
  {
  }

  lemma LeftDueIsHidden(e: Engine, left: set<string>, id: string)
    requires id in e.retryTimers && e.retryTimers[id] in e.turns && e.retryTimers[id] in left
    ensures Shadow(Due(e, id), left) == Shadow(e, left)
  {
    assert Due(e, id).turns - left == e.turns - left;
    assert Timers(Due(e, id).retryTimers, left) == Timers(e.retryTimers, left);
  }

  lemma OwnDueShows(e: Engine, left: set<string>, id: string)
    requires id in e.retryTimers && e.retryTimers[id] in e.turns && e.retryTimers[id] !in left
    ensures var s := Shadow(e, left);
            && id in s.retryTimers && s.retryTimers[id] == e.retryTimers[id] && s.retryTimers[id] in s.turns
            && Shadow(Due(e, id), left) == Due(s, id)
  {
    var r, s := e.retryTimers[id], Shadow(e, left);
    assert Due(e, id).turns - left == (e.turns - left)[r := e.turns[r].(phase := RetryStopping)];
    assert Timers(Due(e, id).retryTimers, left) == Timers(e.retryTimers, left) - {id};
  }

  lemma DueKeepsLeft(e: Engine, left: set<string>, id: string)
    requires AllLeft(e, left) && id in e.retryTimers && e.retryTimers[id] in e.turns
    requires e.turns[e.retryTimers[id]].sessionId == id
    ensures AllLeft(Due(e, id), left)
  {
    forall r | r in left ensures IsLeft(Due(e, id), r) { assert IsLeft(e, r); }
  }

  // ----------------------------------------------------- ends of turns, loosely

  lemma DropArmed(h: Harness, e: Engine, id: string, r: string)
    requires Inv(h, Failed(e, id, r)) && !e.closing && id !in e.retryTimers && r in e.turns
    ensures Inv(h, Done(e, r))
  {
    var x, e' := Failed(e, id, r), Done(e, r);
    DroppedTurns(e, id, r);
    hide TurnsOk, SessionsOk, DispatchedOnce;
    SameDispatch(x, e');
    MemoryKeeps(h, x, e');
  }

  lemma DroppedTurns(e: Engine, id: string, r: string)
    requires TurnsOk(Failed(e, id, r)) && !e.closing && id !in e.retryTimers && r in e.turns
    ensures TurnsOk(Done(e, r))
  {
    var x, e' := Failed(e, id, r), Done(e, r);
    forall s ensures TurnOk(e', s) { assert TurnOk(x, s); }
    hide TurnOk;
    assert forall s :: s in e'.turns ==> s in x.turns && x.turns[s] == e'.turns[s];
    forall i | i in e'.retryTimers
      ensures e'.retryTimers[i] in e'.turns && e'.turns[e'.retryTimers[i]].sessionId == i
      ensures e'.turns[e'.retryTimers[i]].phase == RetryArmed
    {
      assert i in x.retryTimers && x.retryTimers[i] == e'.retryTimers[i];
      assert x.retryTimers[id] == r && x.turns[r].sessionId == id;
    }
  }

  lemma DoneShadow(k: Engine, left: set<string>, r: string)
    requires r !in left
    ensures Shadow(Done(k, r), left) == Done(Shadow(k, left), r)
  {
    assert k.turns - {r} - left == k.turns - left - {r};
  }

  lemma DoneKeepsLeft(k: Engine, left: set<string>, r: string)
    requires AllLeft(k, left) && r !in left
    ensures AllLeft(Done(k, r), left)
  {
    forall x | x in left ensures IsLeft(Done(k, r), x) { assert IsLeft(k, x); }
  }

  function Armed(k: Engine, id: string, r: string): Engine
    requires r in k.turns
  {
    k.(retryTimers := k.retryTimers[id := r], turns := k.turns[r := k.turns[r].(phase := RetryArmed)])
  }

  lemma FailedIs(k: Engine, id: string, r: string)
    requires r in k.turns
    ensures Failed(k, id, r) == if k.closing || id in k.retryTimers then Done(k, r) else Armed(k, id, r)
  {
  }

  /** A turn that failed before it was stored as over stays a turn to retry. */
  lemma ArmedShows(k: Engine, left: set<string>, id: string, r: string)
    requires r !in left && r in k.turns && id !in k.retryTimers
    ensures r in Shadow(k, left).turns && Shadow(Armed(k, id, r), left) == Armed(Shadow(k, left), id, r)
  {
    var turn := k.turns[r].(phase := RetryArmed);
    assert k.turns[r := turn] - left == (k.turns - left)[r := turn];
    assert Timers(k.retryTimers[id := r], left) == Timers(k.retryTimers, left)[id := r];
  }

  lemma ArmedKeepsLeft(k: Engine, left: set<string>, id: string, r: string)
    requires AllLeft(k, left) && r !in left && r in k.turns
    ensures AllLeft(Armed(k, id, r), left)
  {
    forall x | x in left ensures IsLeft(Armed(k, id, r), x) { assert IsLeft(k, x); }
  }

  /** One that failed after it was stored as over is left behind. */
  lemma ArmedIsLeft(k: Engine, left: set<string>, id: string, r: string)
    requires AllLeft(k, left) && r !in left && r in k.turns && k.turns[r].sessionId == id && r in k.used
    requires id !in k.running && id !in k.retryTimers && forall x :: x in k.retryTimers ==> k.retryTimers[x] != r
    ensures AllLeft(Armed(k, id, r), left + {r})
    ensures Shadow(Armed(k, id, r), left + {r}) == Done(Shadow(k, left), r)
  {
    var e' := Armed(k, id, r);
    forall x | x in left + {r} ensures IsLeft(e', x) { if x != r { assert IsLeft(k, x); } }
    assert e'.turns - (left + {r}) == k.turns - left - {r};
    assert Timers(e'.retryTimers, left + {r}) == Timers(k.retryTimers, left);
  }

  lemma OwnEnd(h: Harness, k: Engine, left: set<string>, r: string, id: string, fails: bool, e': Engine)
    returns (left': set<string>)
    requires AllLeft(k, left) && r !in left && r in k.turns && k.turns[r].sessionId == id && r in k.used
    requires Inv(h, if fails then Failed(Shadow(k, left), id, r) else Done(Shadow(k, left), r))
    requires !fails ==> id !in k.running
    requires id !in Shadow(k, left).retryTimers && forall x :: x in k.retryTimers ==> k.retryTimers[x] != r
    requires e' == Failed(k, id, r) || (!fails && e' == Done(k, r))
    ensures LooseInv(h, e', left')
  {
    hide Inv, AllLeft, Shadow, Failed, Done, Armed;
    left' := left;
    FailedIs(k, id, r);
    DoneShadow(k, left, r);
    DoneKeepsLeft(k, left, r);
    ShadowIs(k, left);
    FailedIs(Shadow(k, left), id, r);
    if e' == Done(k, r) {
      if fails && !k.closing { DropArmed(h, Shadow(k, left), id, r); }
    } else if fails {
      ArmedShows(k, left, id, r);
      ArmedKeepsLeft(k, left, id, r);
    } else {
      ArmedIsLeft(k, left, id, r);
      left' := left + {r};
    }
  }

  lemma ShadowIs(e: Engine, left: set<string>)
    ensures var s := Shadow(e, left);
            && s.closing == e.closing && s.tables == e.tables && s.running == e.running && s.live == e.live
            && s.used == e.used
            && (forall r :: r in s.turns <==> r in e.turns && r !in left)
            && (forall r :: r in s.turns ==> s.turns[r] == e.turns[r])
  {
  }

  /** What the invariants say about a turn of their own. */
  lemma OwnTurn(h: Harness, e: Engine, left: set<string>, r: string)
    requires LooseInv(h, e, left) && r in e.turns && r !in left
    requires e.turns[r].phase == Stopping || e.turns[r].phase == RetryStopping
    ensures r in e.used && e.turns[r].sessionId !in Shadow(e, left).retryTimers
    ensures forall x :: x in e.retryTimers ==> e.retryTimers[x] != r
  {
    ShadowIs(e, left);
    assert TurnOk(Shadow(e, left), r);
    TurnRuns(h, Shadow(e, left), r);
    forall x | x in e.retryTimers ensures e.retryTimers[x] != r { TimersAreTurns(h, e, left, x); }
  }

  lemma StopStep(h: Harness, e: Engine, r: string, env: Env, left: set<string>) returns (left': set<string>)
    requires Lawful(h) && LooseInv(h, e, left) && FreshIds(e, env) && r in e.turns && e.turns[r].phase == Stopping
    ensures LooseInv(h, Stopped(h, e, r, env), left')
  {
    OwnTurnIsNotLeft(e, left, r);
    OwnTurn(h, e, left, r);
    ShadowIs(e, left);
    hide Inv, Lawful, AllLeft, Stopped, StopEnd, Calmly, Ends, Timers;
    var s, id := Shadow(e, left), e.turns[r].sessionId;
    var (k, fails) := StopEnd(h, e, r, env);
    StopWith(h, e, r, env, e.turns - left, Timers(e.retryTimers, left));
    StopEnds(h, e, r, env);
    StopEnds(h, s, r, env);
    StoppedKeeps(h, s, r, Quietly(env));
    CalmlyWhat(e, k);
    CalmKeepsLeft(e, k, env, left);
    EndsWhat(k, fails, id, r, Stopped(h, e, r, env), Stopped(h, e, r, Quietly(env)));
    EndsWhat(Shadow(k, left), fails, id, r, Stopped(h, s, r, env), Stopped(h, s, r, Quietly(env)));
    left' := OwnEnd(h, k, left, r, id, fails, Stopped(h, e, r, env));
  }

  lemma EndsWhat(k: Engine, fails: bool, id: string, r: string, e': Engine, quiet: Engine)
    requires Ends(k, fails, id, r, e', quiet)
    ensures e' == Failed(k, id, r) || (!fails && e' == Done(k, r))
    ensures quiet == if fails then Failed(k, id, r) else Done(k, r)
  {
  }

  lemma OwnRetryStep(h: Harness, e: Engine, r: string, env: Env, left: set<string>) returns (left': set<string>)
    requires Lawful(h) && LooseInv(h, e, left) && FreshIds(e, env)
    requires r in e.turns && r !in left && e.turns[r].phase == RetryStopping
    ensures LooseInv(h, RetriedStop(h, e, r, env), left')
  {
    OwnTurn(h, e, left, r);
    ShadowIs(e, left);
    hide Inv, Lawful, AllLeft, RetriedStop, RetryEnd, Calmly, Ends, Timers;
    var s, id := Shadow(e, left), e.turns[r].sessionId;
    var (k, fails) := RetryEnd(h, e, r, env);
    RetryWith(h, e, r, env, e.turns - left, Timers(e.retryTimers, left));
    RetryEnds(h, e, r, env);
    RetryEnds(h, s, r, env);
    RetriedKeeps(h, s, r, Quietly(env));
    CalmlyWhat(e, k);
    CalmKeepsLeft(e, k, env, left);
    EndsWhat(k, fails, id, r, RetriedStop(h, e, r, env), RetriedStop(h, e, r, Quietly(env)));
    EndsWhat(Shadow(k, left), fails, id, r, RetriedStop(h, s, r, env), RetriedStop(h, s, r, Quietly(env)));
    left' := OwnEnd(h, k, left, r, id, fails, RetriedStop(h, e, r, env));
  }

  /** The retry of a turn left behind, once its provider has stopped, would drop a newer
      run of its session. */
  ghost predicate DropsANewerRun(e: Engine, op: Op, env: Env) {
    && op.RetryStopped? && op.runId in e.turns && e.turns[op.runId].phase == RetryStopping
    && var id := e.turns[op.runId].sessionId;
       && !env.stopFails && !FlushThrows(e, id, env.flushFails)
       && id in e.tables.sessions && e.tables.sessions[id].status == Running
       && e.tables.sessions[id].runId != Some(op.runId)
  }

  lemma LeftIsNotRunning(h: Harness, e: Engine, left: set<string>, r: string)
    requires LooseInv(h, e, left) && r in left
    ensures r in e.turns
    ensures var id := e.turns[r].sessionId;
            id in e.tables.sessions ==>
              && !StillRuns(e.tables.sessions[id], r)
              && (e.tables.sessions[id].status != Running ==> id !in e.running && id !in e.live)
  {
    assert IsLeft(e, r);
    ShadowIs(e, left);
    SessionsOkAt(h, Shadow(e, left), e.turns[r].sessionId);
  }

  lemma FinishLeft(h: Harness, k: Engine, left: set<string>, r: string, e': Engine) returns (left': set<string>)
    requires LooseInv(h, k, left) && r in left && r in k.turns && k.turns[r].phase == RetryStopping
    requires e' == Failed(k, k.turns[r].sessionId, r) || e' == Done(k, r)
    ensures LooseInv(h, e', left')
  {
    var id := k.turns[r].sessionId;
    FailedIs(k, id, r);
    forall x | x in k.retryTimers ensures k.retryTimers[x] != r { TimersAreTurns(h, k, left, x); }
    hide Inv, Done, Armed, Shadow;
    if e' == Done(k, r) {
      left' := left - {r};
      DoneLeft(k, left, r);
    } else {
      left' := left;
      ArmedAgain(k, left, id, r);
    }
  }

  lemma DoneLeft(k: Engine, left: set<string>, r: string)
    requires AllLeft(k, left) && r in left && forall x :: x in k.retryTimers ==> k.retryTimers[x] != r
    ensures Shadow(Done(k, r), left - {r}) == Shadow(k, left) && AllLeft(Done(k, r), left - {r})
  {
    forall x | x in left - {r} ensures IsLeft(Done(k, r), x) { assert IsLeft(k, x); }
    assert k.turns - {r} - (left - {r}) == k.turns - left;
    assert Timers(k.retryTimers, left - {r}) == Timers(k.retryTimers, left);
  }

  lemma ArmedAgain(k: Engine, left: set<string>, id: string, r: string)
    requires AllLeft(k, left) && r in left && r in k.turns && k.turns[r].sessionId == id && id !in k.retryTimers
    ensures Shadow(Armed(k, id, r), left) == Shadow(k, left) && AllLeft(Armed(k, id, r), left)
  {
    forall x | x in left ensures IsLeft(Armed(k, id, r), x) { assert IsLeft(k, x); }
    assert Armed(k, id, r).turns - left == k.turns - left;
    assert Timers(k.retryTimers[id := r], left) == Timers(k.retryTimers, left);
  }

  lemma FlushLoosely(h: Harness, e: Engine, id: string, env: Env, left: set<string>)
    requires Lawful(h) && LooseInv(h, e, left) && FreshIds(e, env)
    ensures var k := Flushed(e, id, env.now, env.flushFails);
            LooseInv(h, k, left) && k.turns == e.turns && k.retryTimers == e.retryTimers
  {
    hide Inv, Lawful, AllLeft, Flushed, Calmly, FlushThrows;
    var t, m := e.turns - left, Timers(e.retryTimers, left);
    FlushWith(e, id, env.now, env.flushFails, t, m);
    FlushCalmly(e, id, env.now, env.flushFails);
    CalmlyWhat(e, Flushed(e, id, env.now, env.flushFails));
    CalmKeepsLeft(e, Flushed(e, id, env.now, env.flushFails), env, left);
    FlushKeeps(h, Shadow(e, left), id, env.now, env.flushFails);
  }

  lemma LeftRetryStep(h: Harness, e: Engine, r: string, env: Env, left: set<string>) returns (left': set<string>)
    requires Lawful(h) && LooseInv(h, e, left) && FreshIds(e, env)
    requires r in left && r in e.turns && e.turns[r].phase == RetryStopping
    requires !DropsANewerRun(e, RetryStopped(r), env)
    ensures LooseInv(h, RetriedStop(h, e, r, env), left')
  {
    hide Inv, Lawful, AllLeft, Flushed, FlushThrows, RetriedFlushed, Failed, Done;
    var id, e' := e.turns[r].sessionId, RetriedStop(h, e, r, env);
    if env.stopFails || FlushThrows(e, id, env.flushFails) {
      left' := FinishLeft(h, e, left, r, e');
    } else {
      var k := Flushed(e, id, env.now, env.flushFails);
      FlushLoosely(h, e, id, env, left);
      LeftIsNotRunning(h, k, left, r);
      LeftIsNotRunning(h, e, left, r);
      FlushKeepsRow(h, e, id, env, left);
      NothingToRetry(h, k, id, r, env);
      left' := FinishLeft(h, k, left, r, e');
    }
  }

  lemma FlushKeepsRow(h: Harness, e: Engine, id: string, env: Env, left: set<string>)
    requires Lawful(h) && LooseInv(h, e, left)
    ensures var k := Flushed(e, id, env.now, env.flushFails);
            && (id in k.tables.sessions <==> id in e.tables.sessions)
            && (id in k.tables.sessions ==> k.tables.sessions[id].status == e.tables.sessions[id].status
                                            && k.tables.sessions[id].runId == e.tables.sessions[id].runId)
  {
    var s := Shadow(e, left);
    ShadowIs(e, left);
    FlushWith(e, id, env.now, env.flushFails, e.turns - left, Timers(e.retryTimers, left));
    WithIsAlike(Flushed(e, id, env.now, env.flushFails), e.turns - left, Timers(e.retryTimers, left));
    FlushKeeps(h, s, id, env.now, env.flushFails);
    if id in e.tables.sessions {
      SessionsOkAt(h, s, id);
      var k := Flushed(s, id, env.now, env.flushFails);
      if !FlushThrows(s, id, env.flushFails) {
        hide Inv, Flushed, Core, FlushThrows, Quiet;
        SameParts(k.tables.sessions[id], Effective(s, id));
      }
    }
  }

  lemma NothingToRetry(h: Harness, k: Engine, id: string, r: string, env: Env)
    requires id in k.tables.sessions ==> !StillRuns(k.tables.sessions[id], r) && id !in k.running && id !in k.live
    ensures var e' := RetriedFlushed(h, k, id, r, env); e' == Failed(k, id, r) || e' == Done(k, r)
  {
    hide Failed, Done, InterruptedRun;
    if id in k.tables.sessions {
      assert k.live - {id} == k.live && k.running - {id} == k.running;
    }
  }

  // ----------------------------------------------------------------- all runs

  lemma LooseStep(h: Harness, e: Engine, op: Op, env: Env, e': Engine, left: set<string>) returns (left': set<string>)
    requires Lawful(h) && LooseInv(h, e, left) && FreshIds(e, env) && Step(h, e, op, env, e')
    requires !DropsANewerRun(e, op, env)
    ensures LooseInv(h, e', left')
  {
    hide Lawful, LooseInv, Issued, Emitted, TimerFlushed, Started, Stopped, RetriedStop, Updated, Titled, Branched,
      Removed, SwitchBegun, Closed, Restarted;
    left' := left;
    match op
    case Issue(c) => IssueStep(h, e, c, env, left);
    case StartTurn(r) => StartStep(h, e, r, env, left);
    case ProviderDone(r, error) => AnswerStep(h, e, r, error, env, e', left);
    case TurnStopped(r) =>
      if r in e.turns && e.turns[r].phase == Stopping { left' := StopStep(h, e, r, env, left); }
    case RetryStopped(r) =>
      if r in e.turns && e.turns[r].phase == RetryStopping {
        if r in left { left' := LeftRetryStep(h, e, r, env, left); } else { left' := OwnRetryStep(h, e, r, env, left); }
      }
    case RetryDue(id) => DueStep(h, e, id, env, e', left);
    case Close => left' := CloseStep(h, e, env, left);
    case Restart => RestartStep(h, e, env, e', left); left' := {};
    case Delete(_) => OtherStep(h, e, op, env, e', left);
    case BeginSwitch(_) => OtherStep(h, e, op, env, e', left);
    case EndSwitch(_) => OtherStep(h, e, op, env, e', left);
    case _ => QuietStep(h, e, op, env, e', left);
  }

  /** Runs in which binding a provider may throw whenever a turn ends. */
  ghost predicate LooseRun(h: Harness, states: seq<Engine>, ops: seq<Op>, envs: seq<Env>) {
    && |states| == |ops| + 1 && |envs| == |ops|
    && forall i :: 0 <= i < |ops| ==> Step(h, states[i], ops[i], envs[i], states[i + 1]) && FreshIds(states[i], envs[i])
  }

  ghost predicate NoneDropped(states: seq<Engine>, ops: seq<Op>, envs: seq<Env>, n: nat)
    requires n <= |ops| < |states| && |envs| == |ops|
  {
    forall i :: 0 <= i < n ==> !DropsANewerRun(states[i], ops[i], envs[i])
  }

  lemma {:induction false} LooseInvHolds(h: Harness, states: seq<Engine>, ops: seq<Op>, envs: seq<Env>, n: nat)
    returns (left: set<string>)
    requires Lawful(h) && LooseRun(h, states, ops, envs) && Inv(h, states[0]) && n <= |ops|
    requires NoneDropped(states, ops, envs, n)
    ensures LooseInv(h, states[n], left)
    decreases n
  {
    hide Inv, Lawful, LooseInv, Step, FreshIds, DropsANewerRun;
    if n == 0 {
      left := {};
      StartsLoosely(h, states[0]);
    } else {
      left := LooseInvHolds(h, states, ops, envs, n - 1);
      left := LooseStep(h, states[n - 1], ops[n - 1], envs[n - 1], states[n], left);
    }
  }

  lemma StartsLoosely(h: Harness, e: Engine)
    requires Inv(h, e)
    ensures LooseInv(h, e, {})
  {
    NothingLeft(e);
  }

  /** The running map is the sessions stored as running. */
  ghost predicate MapIsRight(e: Engine) { forall id :: MapsAgree(e, id) }

  lemma LooseMapIsRight(h: Harness, e: Engine, left: set<string>)
    requires LooseInv(h, e, left)
    ensures MapIsRight(e)
  {
    ShadowIs(e, left);
    forall id ensures MapsAgree(e, id) { SessionsOkAt(h, Shadow(e, left), id); }
  }

  lemma DroppingBreaksTheMap(h: Harness, e: Engine, op: Op, env: Env, e': Engine, left: set<string>)
    requires Lawful(h) && LooseInv(h, e, left) && Step(h, e, op, env, e') && DropsANewerRun(e, op, env)
    ensures !MapIsRight(e')
  {
    var r := op.runId;
    var id := e.turns[r].sessionId;
    FlushKeepsRow(h, e, id, env, left);
    hide LooseInv, Flushed, FlushThrows, RetriedFlushed;
    RunIsDropped(h, Flushed(e, id, env.now, env.flushFails), id, r, env);
    assert !MapsAgree(e', id);
  }

  lemma RunIsDropped(h: Harness, k: Engine, id: string, r: string, env: Env)
    requires id in k.tables.sessions && k.tables.sessions[id].status == Running && k.tables.sessions[id].runId != Some(r)
    ensures var e' := RetriedFlushed(h, k, id, r, env);
            id !in e'.running && id in e'.tables.sessions && e'.tables.sessions[id].status == Running
  {
    hide InterruptedRun;
  }

  /** In every run, whatever throws, the running map stays right if and only if no retry of
      a finished turn goes through while a newer run of its session is stored as running. */
  lemma {:induction false} MapStaysRightIff(h: Harness, states: seq<Engine>, ops: seq<Op>, envs: seq<Env>, n: nat)
    requires Lawful(h) && LooseRun(h, states, ops, envs) && Inv(h, states[0]) && n <= |ops|
    ensures (forall i :: 0 <= i <= n ==> MapIsRight(states[i])) <==> NoneDropped(states, ops, envs, n)
    decreases n
  {
    hide Inv, Lawful, LooseInv, Step, FreshIds, DropsANewerRun, MapIsRight;
    if n > 0 { MapStaysRightIff(h, states, ops, envs, n - 1); }
    if n == 0 || NoneDropped(states, ops, envs, n - 1) {
      if NoneDropped(states, ops, envs, n) {
        var left := LooseInvHolds(h, states, ops, envs, n);
        LooseMapIsRight(h, states[n], left);
      } else {
        var left := LooseInvHolds(h, states, ops, envs, n - 1);
        DroppingBreaksTheMap(h, states[n - 1], ops[n - 1], envs[n - 1], states[n], left);
      }
    }
  }

  /** In such a run everything the host keeps of its sessions holds as before. */
  lemma SessionsStayOk(h: Harness, states: seq<Engine>, ops: seq<Op>, envs: seq<Env>, n: nat)
    requires Lawful(h) && LooseRun(h, states, ops, envs) && Inv(h, states[0]) && n <= |ops|
    requires NoneDropped(states, ops, envs, n)
    ensures SessionsOk(h, states[n])
  {
    var left := LooseInvHolds(h, states, ops, envs, n);
    var e, s := states[n], Shadow(states[n], left);
    assert SessionsOk(h, s);
    hide StoredOk, Shape, LiveOk;
    forall id ensures SessionOk(h, e, id) {
      assert SessionOk(h, s, id);
      SameRows(h, s, e, id);
    }
  }
}
