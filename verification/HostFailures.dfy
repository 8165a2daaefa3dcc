/** Crashes, failed writes and a provider that cannot be rebound, in `host/engine.ts`. */
module HostFailures {
  import opened Wrappers
  import opened HostSessions
  import opened DeltaSync
  import opened HostStores
  import opened HostSteps
  import opened HostRuns
  import opened HostGuarantees
  import opened HostStreams

  // ----------------------------------------------------- nothing urgent waits

  /** Only events that may wait for a batch wait, unless a write has failed. */
  ghost predicate UrgentOk(e: Engine) {
    forall id :: id in e.live && id in e.running && !e.running[id].persistenceFailed ==> AllBatched(e.live[id].events)
  }

  predicate AllBatched(events: seq<HarnessEvent>) { forall i :: 0 <= i < |events| ==> IsBatched(events[i]) }

  /** No queue of waiting events grows, and no failure is forgotten while one waits. */
  ghost predicate Calm(e: Engine, e': Engine) {
    forall id :: id in e'.live ==> CalmAt(e, e', id)
  }

  ghost predicate CalmAt(e: Engine, e': Engine, id: string)
    requires id in e'.live
  {
    || e'.live[id].events == []
    || (id in e.live && e'.live[id].events == e.live[id].events
        && (id in e'.running ==> id in e.running && (e.running[id].persistenceFailed ==> e'.running[id].persistenceFailed)))
  }

  lemma CalmKeeps(e: Engine, e': Engine)
    requires UrgentOk(e) && Calm(e, e')
    ensures UrgentOk(e')
  {
    hide AllBatched;
    forall id | id in e'.live && id in e'.running && !e'.running[id].persistenceFailed
      ensures AllBatched(e'.live[id].events)
    {
      assert CalmAt(e, e', id);
      if e'.live[id].events == [] { NothingIsBatched(e'.live[id].events); }
    }
  }

  lemma NothingIsBatched(events: seq<HarnessEvent>)
    requires events == []
    ensures AllBatched(events)
  {
  }

  lemma CalmChain(e: Engine, e1: Engine, e2: Engine)
    requires Calm(e, e1) && Calm(e1, e2)
    ensures Calm(e, e2)
  {
    forall id | id in e2.live ensures CalmAt(e, e2, id) { assert CalmAt(e1, e2, id); }
  }

  lemma FlushIsCalm(e: Engine, id: string, now: Time, fails: bool)
    ensures Calm(e, Flushed(e, id, now, fails)) && Calm(e, TimerFlushed(e, id, now, fails))
  {
    hide Saved;
  }

  lemma WriteIsCalm(e: Engine, input: HostSession, record: Record, id: string)
    ensures Calm(e, Written(e, input, record)) && Calm(e, Refreshed(Written(e, input, record), id))
  {
    hide Saved;
  }

  lemma EffectIsCalm(e: Engine, c: Command, id: string, env: Env)
    requires id in e.tables.sessions
    ensures Calm(e, Effect(e, c, id, env)) && Calm(e, NewIds(e, env))
  {
  }

  lemma CommitIsCalm(e: Engine, c: Command, v: HostSession, env: Env)
    ensures Calm(e, Committed(e, c, v, env))
  {
    var id := v.session.id;
    CommittedIs(e, c, v, env);
    var first := WithReceipt(NewIds(e, env), c, v);
    var written := Written(first, InputOf(c, v, env), HostSessions.Commanded(c));
    assert Calm(e, first);
    hide Committed, Written, WithReceipt, NewIds, Effect, Refreshed, Calm;
    WriteIsCalm(first, InputOf(c, v, env), HostSessions.Commanded(c), id);
    RefreshFrame(written, id);
    EffectIsCalm(Refreshed(written, id), c, id, env);
    CalmChain(e, first, Refreshed(written, id));
    CalmChain(e, Refreshed(written, id), Committed(e, c, v, env));
  }

  lemma SameIsCalm(e: Engine, e': Engine)
    requires e'.live == e.live && e'.running == e.running
    ensures Calm(e, e')
  {
  }

  lemma IssueIsCalm(h: Harness, e: Engine, c: Command, env: Env)
    ensures Calm(e, Issued(h, e, c, env).0)
  {
    SameIsCalm(e, e);
    hide Flushed, IssuedFlushed, Calm, FlushThrows;
    if !e.closing && !Replayed(e, c) {
      var flushed := if c.Create? then e else Flushed(e, c.sessionId, env.now, env.flushFails);
      if !c.Create? { FlushIsCalm(e, c.sessionId, env.now, env.flushFails); }
      OutcomeIsCalm(h, flushed, c, env);
      CalmChain(e, flushed, IssuedFlushed(h, flushed, c, env).0);
    }
  }

  lemma OutcomeIsCalm(h: Harness, e: Engine, c: Command, env: Env)
    ensures Calm(e, IssuedFlushed(h, e, c, env).0)
  {
    SameIsCalm(e, e);
    hide Committed, Outcome, Calm;
    var value := Outcome(h, e, c, env);
    if value.Some? { CommitIsCalm(e, c, value.value, env); }
  }

  lemma EditedIsCalm(e: Engine, id: string, edit: HostSession -> Option<HostSession>, record: Record, env: Env)
    ensures Calm(e, Edited(e, id, edit, record, env))
  {
    SameIsCalm(e, e);
    hide Written, Refreshed, Calm;
    if id in e.tables.sessions && edit(e.tables.sessions[id]).Some? {
      WriteIsCalm(e, edit(e.tables.sessions[id]).value, record, id);
    }
  }

  lemma FlushedEditIsCalm(e: Engine, id: string, edit: HostSession -> Option<HostSession>, record: Record, env: Env)
    ensures Calm(e, e) && Calm(e, Edited(Flushed(e, id, env.now, env.flushFails), id, edit, record, env))
  {
    SameIsCalm(e, e);
    hide Flushed, Edited, Calm;
    var flushed := Flushed(e, id, env.now, env.flushFails);
    FlushIsCalm(e, id, env.now, env.flushFails);
    EditedIsCalm(flushed, id, edit, record, env);
    CalmChain(e, flushed, Edited(flushed, id, edit, record, env));
  }

  lemma UpdateIsCalm(e: Engine, id: string, patch: Patch, env: Env)
    ensures Calm(e, Updated(e, id, patch, env))
  {
    hide Flushed, Edited, Calm, FlushThrows;
    var edit := v => if ValidPatch(patch) then Some(Patched(v, patch)) else None;
    FlushedEditIsCalm(e, id, edit, Metadata(patch), env);
  }

  lemma TitleIsCalm(e: Engine, id: string, expected: string, title: string, env: Env)
    ensures Calm(e, Titled(e, id, expected, title, env))
  {
    hide Flushed, Edited, Calm, FlushThrows;
    FlushedEditIsCalm(e, id, v => NewTitle(v, expected, title, env), GeneratedTitle, env);
  }

  lemma BranchIsCalm(e: Engine, id: string, branch: string, env: Env)
    ensures Calm(e, Branched(e, id, branch, env))
  {
    hide Flushed, Edited, Calm, FlushThrows;
    FlushedEditIsCalm(e, id, v => Some(NewBranch(v, branch, env)), GeneratedBranch(branch), env);
  }

  /** Every settlement leaves at most what was live before, without the settled session. */
  lemma FewerIsCalm(e: Engine, e': Engine)
    requires e'.live.Keys <= e.live.Keys && (forall x :: x in e'.live ==> e'.live[x] == e.live[x])
    requires forall x :: x in e'.running && x in e'.live ==> x in e.running && e'.running[x] == e.running[x]
    ensures Calm(e, e')
  {
  }

  lemma DropIsCalm(e: Engine, e1: Engine, id: string)
    requires e1.live == e.live && e1.running == e.running
    ensures Calm(e, e1.(running := e1.running - {id}))
    ensures Calm(e, e1.(live := e1.live - {id}, running := e1.running - {id}))
  {
  }

  lemma FailedIsCalm(e: Engine, id: string, r: string)
    ensures Calm(e, Failed(e, id, r))
  {
    SameIsCalm(e, Failed(e, id, r));
  }

  lemma FreedIsCalm(e: Engine, id: string, bound: HostSession, r: string, env: Env)
    ensures Calm(e, Freed(e, id, bound, r, env))
  {
    SameIsCalm(e, Failed(e, id, r));
    SameIsCalm(e, Done(e, r));
    hide Calm, BindThrows;
  }

  lemma StopFlushedIsCalm(h: Harness, e: Engine, id: string, r: string, error: Option<string>, env: Env)
    ensures Calm(e, StoppedFlushed(h, e, id, r, error, env)) && Calm(e, Failed(e, id, r))
  {
    FailedIsCalm(e, id, r);
    hide SettledTurn, Calm, Freed, Failed;
    if id in e.tables.sessions && !(e.tables.sessions[id].runId == Some(r) && env.saveFails) {
      var latest := e.tables.sessions[id];
      SettledTurnLive(h, e, latest, id, error, env);
      var saved := if latest.runId == Some(r) then SettledTurn(h, e, latest, id, error, env) else e;
      var free := saved.(running := saved.running - {id});
      DropIsCalm(e, saved, id);
      FreedIsCalm(free, id, saved.tables.sessions[id], r, env);
      CalmChain(e, free, Freed(free, id, saved.tables.sessions[id], r, env));
    }
  }

  lemma StopIsCalm(h: Harness, e: Engine, r: string, env: Env)
    requires r in e.turns
    ensures Calm(e, Stopped(h, e, r, env))
  {
    var id, error := e.turns[r].sessionId, e.turns[r].error;
    StopFlushedIsCalm(h, e, id, r, error, env);
    hide Flushed, StoppedFlushed, Calm, FlushThrows, Failed;
    if !env.stopFails && !FlushThrows(e, id, env.flushFails) {
      FlushIsCalm(e, id, env.now, env.flushFails);
      var flushed := Flushed(e, id, env.now, env.flushFails);
      var gone := flushed.(live := flushed.live - {id});
      FewerIsCalm(flushed, gone);
      StopFlushedIsCalm(h, gone, id, r, error, env);
      CalmChain(e, flushed, gone);
      CalmChain(e, gone, StoppedFlushed(h, gone, id, r, error, env));
    }
  }

  lemma SettledTurnLive(h: Harness, e: Engine, latest: HostSession, id: string, error: Option<string>, env: Env)
    requires id in e.tables.sessions
    ensures SettledTurn(h, e, latest, id, error, env).live == e.live
    ensures SettledTurn(h, e, latest, id, error, env).running == e.running
  {
    hide Saved, SettledValue, Message;
  }

  lemma RetryFlushedIsCalm(h: Harness, e: Engine, id: string, r: string, env: Env)
    ensures Calm(e, RetriedFlushed(h, e, id, r, env)) && Calm(e, Failed(e, id, r))
  {
    FailedIsCalm(e, id, r);
    hide InterruptedRun, Calm, Freed, Failed;
    if id in e.tables.sessions && !(StillRuns(e.tables.sessions[id], r) && env.saveFails) {
      var latest := e.tables.sessions[id];
      InterruptedLive(h, e, latest, env);
      var saved := if StillRuns(latest, r) then InterruptedRun(h, e, latest, env) else e;
      var free := saved.(live := saved.live - {id}, running := saved.running - {id});
      DropIsCalm(e, saved, id);
      FreedIsCalm(free, id, latest, r, env);
      CalmChain(e, free, Freed(free, id, latest, r, env));
    }
  }

  lemma InterruptedLive(h: Harness, e: Engine, latest: HostSession, env: Env)
    ensures InterruptedRun(h, e, latest, env).live == e.live && InterruptedRun(h, e, latest, env).running == e.running
  {
    hide SettledValue;
    SaveLive(e, SettledValue(h, latest, Interrupted, Some(STORAGE_FAILED), latest.updatedAt, env.newId),
             InterruptedTurn(Some("persistence failure")), env.now);
  }

  lemma RetryIsCalm(h: Harness, e: Engine, r: string, env: Env)
    requires r in e.turns
    ensures Calm(e, RetriedStop(h, e, r, env))
  {
    var id := e.turns[r].sessionId;
    RetryFlushedIsCalm(h, e, id, r, env);
    hide Flushed, RetriedFlushed, Calm, FlushThrows, Failed;
    if !env.stopFails && !FlushThrows(e, id, env.flushFails) {
      FlushIsCalm(e, id, env.now, env.flushFails);
      var flushed := Flushed(e, id, env.now, env.flushFails);
      RetryFlushedIsCalm(h, flushed, id, r, env);
      CalmChain(e, flushed, RetriedFlushed(h, flushed, id, r, env));
    }
  }

  lemma SaveLive(e: Engine, v: HostSession, record: Record, now: Time)
    ensures SavedAs(e, v, record, now).live == e.live && SavedAs(e, v, record, now).running == e.running
  {
    hide Saved;
  }

  lemma {:induction false} RecoveryIsEmpty(h: Harness, e: Engine, ids: seq<string>, env: Env)
    requires e.live == map[]
    ensures RecoveredAll(h, e, ids, env).live == map[]
    decreases |ids|
  {
    hide SavedAs, SettledValue;
    if ids != [] {
      var n := |ids| - 1;
      RecoveryIsEmpty(h, e, ids[..n], env);
      var mid := RecoveredAll(h, e, ids[..n], env);
      if ids[n] in mid.tables.sessions {
        SaveLive(mid, RecoveredValue(h, mid.tables.sessions[ids[n]], env), InterruptedTurn(None), env.now);
      }
    }
  }

  lemma PlainIsCalm(e: Engine, r: string, env: Env)
    ensures Calm(e, Started(e, r)) && Calm(e, SwitchBegun(e, r)) && Calm(e, Closed(e)) && Calm(e, Removed(e, r, env))
  {
    StartedFrame(e, r);
    SwitchFrame(e, r);
    ClosedFrame(e);
    RemovedFrame(e, r, env);
    hide Started, SwitchBegun, Closed, Removed;
    SameIsCalm(e, Started(e, r));
    SameIsCalm(e, SwitchBegun(e, r));
    SameIsCalm(e, Closed(e));
    SameIsCalm(e, Removed(e, r, env));
  }

  lemma RemovedFrame(e: Engine, id: string, env: Env)
    ensures Removed(e, id, env).live == e.live && Removed(e, id, env).running == e.running
  {
    hide Deleted, CanDelete;
  }

  lemma EmitKeepsUrgent(h: Harness, e: Engine, id: string, runId: string, event: HarnessEvent, env: Env)
    requires Inv(h, e) && UrgentOk(e)
    ensures UrgentOk(Emitted(h, e, id, runId, event, env))
  {
    hide Inv, Flushed, Calm;
    if Accepts(e, id, runId) && h.apply(e.live[id].value.session, event).Some? {
      ListenersRun(h, e, id, runId);
      var next := Pushed(h, e, id, event);
      if IsBatched(event) {
        PushKeepsUrgent(h, e, id, event);
      } else {
        FlushedAfterPush(h, e, id, event, env);
      }
    }
  }

  lemma PushKeepsUrgent(h: Harness, e: Engine, id: string, event: HarnessEvent)
    requires UrgentOk(e) && id in e.live && h.apply(e.live[id].value.session, event).Some? && IsBatched(event)
    ensures UrgentOk(Pushed(h, e, id, event))
  {
    hide IsBatched;
  }

  lemma FlushedAfterPush(h: Harness, e: Engine, id: string, event: HarnessEvent, env: Env)
    requires UrgentOk(e) && id in e.live && id in e.running && h.apply(e.live[id].value.session, event).Some?
    ensures UrgentOk(TimerFlushed(Pushed(h, e, id, event), id, env.now, env.flushFails))
  {
    hide Saved, IsBatched;
  }

  lemma StepKeepsUrgent(h: Harness, e: Engine, op: Op, env: Env, e': Engine)
    requires Inv(h, e) && UrgentOk(e) && Step(h, e, op, env, e')
    ensures UrgentOk(e')
  {
    hide Inv, Issued, Emitted, TimerFlushed, Stopped, RetriedStop, Updated, Titled, Branched, UrgentOk, Calm, Started,
      SwitchBegun, Closed, Removed, Restarted;
    match op
    case Issue(c) => IssueIsCalm(h, e, c, env); CalmKeeps(e, e');
    case Emit(id, runId, event) => EmitKeepsUrgent(h, e, id, runId, event, env);
    case Timer(id) => FlushIsCalm(e, id, env.now, env.flushFails); CalmKeeps(e, e');
    case TurnStopped(r) => if e' != e { StopIsCalm(h, e, r, env); CalmKeeps(e, e'); }
    case RetryStopped(r) => if e' != e { RetryIsCalm(h, e, r, env); CalmKeeps(e, e'); }
    case Update(id, patch) => UpdateIsCalm(e, id, patch, env); CalmKeeps(e, e');
    case NameTitle(id, expected, title) => TitleIsCalm(e, id, expected, title, env); CalmKeeps(e, e');
    case NameBranch(id, branch) => BranchIsCalm(e, id, branch, env); CalmKeeps(e, e');
    case StartTurn(r) => PlainIsCalm(e, r, env); CalmKeeps(e, e');
    case BeginSwitch(p) => PlainIsCalm(e, p, env); CalmKeeps(e, e');
    case Delete(id) => PlainIsCalm(e, id, env); CalmKeeps(e, e');
    case Close => PlainIsCalm(e, "", env); CalmKeeps(e, e');
    case Restart => RestartIsEmpty(h, e, env, e');
    case _ => SameIsCalm(e, e'); CalmKeeps(e, e');
  }

  lemma RestartIsEmpty(h: Harness, e: Engine, env: Env, e': Engine)
    requires Restarted(h, e, env, e')
    ensures e'.live == map[] && UrgentOk(e')
  {
    var ids: seq<string> :| (forall id :: id in ids <==> id in e.tables.sessions)
      && (forall i, j :: 0 <= i < j < |ids| ==> ids[i] != ids[j]) && e' == RecoveredAll(h, Booted(e), ids, env);
    RecoveryIsEmpty(h, Booted(e), ids, env);
  }

  lemma {:induction false} NothingUrgentWaits(h: Harness, states: seq<Engine>, ops: seq<Op>, envs: seq<Env>, i: nat)
    requires Lawful(h) && Run(h, states, ops, envs) && Inv(h, states[0]) && UrgentOk(states[0]) && i < |states|
    ensures UrgentOk(states[i])
    decreases i
  {
    hide Inv, Step, Fair, Lawful, UrgentOk;
    if i > 0 {
      NothingUrgentWaits(h, states, ops, envs, i - 1);
      InvHolds(h, states, ops, envs, i - 1);
      StepKeepsUrgent(h, states[i - 1], ops[i - 1], envs[i - 1], states[i]);
    }
  }

  // ------------------------------------------------------------------ crashes

  lemma {:induction false} RecoveredAt(h: Harness, e: Engine, ids: seq<string>, env: Env, id: string)
    requires Lawful(h) && (forall i, j :: 0 <= i < j < |ids| ==> ids[i] != ids[j])
    requires forall x :: x in e.tables.sessions ==> e.tables.sessions[x].session.id == x
    ensures var e' := RecoveredAll(h, e, ids, env);
            && (forall x :: x in e'.tables.sessions ==> e'.tables.sessions[x].session.id == x)
            && (id in e.tables.sessions <==> id in e'.tables.sessions)
            && (id in e.tables.sessions ==>
                  if id in ids && e.tables.sessions[id].status == Running
                  then Core(e'.tables.sessions[id]) == Core(RecoveredValue(h, e.tables.sessions[id], env))
                  else e'.tables.sessions[id] == e.tables.sessions[id])
    decreases |ids|
  {
    hide RecoveredOne, RecoveredValue, Core;
    if ids != [] {
      var n := |ids| - 1;
      RecoveredAt(h, e, ids[..n], env, id);
      RecoveredOneAt(h, RecoveredAll(h, e, ids[..n], env), ids[n], env, id);
      assert id in ids <==> id in ids[..n] || id == ids[n];
      assert id == ids[n] ==> id !in ids[..n];
    }
  }

  lemma RecoveredOneAt(h: Harness, e: Engine, one: string, env: Env, id: string)
    requires Lawful(h) && forall x :: x in e.tables.sessions ==> e.tables.sessions[x].session.id == x
    ensures var e' := RecoveredOne(h, e, one, env);
            && (forall x :: x in e'.tables.sessions ==> e'.tables.sessions[x].session.id == x)
            && (id in e.tables.sessions <==> id in e'.tables.sessions)
            && (id in e.tables.sessions ==>
                  if id == one && e.tables.sessions[id].status == Running
                  then Core(e'.tables.sessions[id]) == Core(RecoveredValue(h, e.tables.sessions[id], env))
                  else e'.tables.sessions[id] == e.tables.sessions[id])
  {
    if one in e.tables.sessions && e.tables.sessions[one].status == Running {
      var value := RecoveredValue(h, e.tables.sessions[one], env);
      SettledKeepsId(h, e.tables.sessions[one], Interrupted, Some(RESTARTED), e.tables.sessions[one].updatedAt, env.newId);
      hide RecoveredValue, Core;
      SavedCore(e, value, InterruptedTurn(None), env.now);
      OnlyThatRow(e, value, InterruptedTurn(None), env.now);
    }
  }

  lemma OnlyThatRow(e: Engine, v: HostSession, record: Record, now: Time)
    requires forall x :: x in e.tables.sessions ==> e.tables.sessions[x].session.id == x
    ensures var e' := SavedAs(e, v, record, now);
            && e'.tables.sessions.Keys == e.tables.sessions.Keys + {v.session.id}
            && (forall x :: x in e.tables.sessions && x != v.session.id ==> e'.tables.sessions[x] == e.tables.sessions[x])
            && (forall x :: x in e'.tables.sessions ==> e'.tables.sessions[x].session.id == x)
  {
    hide Stamps, Logged;
  }

  /** After a crash and a restart every session is what was stored, a running one
      interrupted. What it had streamed is stored but for the batch still waiting, and
      in that there is nothing urgent unless a write had failed. */
  lemma CrashLosesOnlyABatch(h: Harness, states: seq<Engine>, ops: seq<Op>, envs: seq<Env>, i: nat, id: string)
    requires Lawful(h) && Run(h, states, ops, envs) && Inv(h, states[0]) && UrgentOk(states[0])
    requires i < |ops| && ops[i] == Restart && id in states[i].tables.sessions
    ensures var e, e' := states[i], states[i + 1];
            var v := e.tables.sessions[id];
            var waiting := if id in e.live then e.live[id].events else [];
            && id in e'.tables.sessions && id !in e'.running && id !in e'.live
            && Core(e'.tables.sessions[id]) == Core(if v.status == Running then RecoveredValue(h, v, envs[i]) else v)
            && Effective(e, id) == v.(session := Fold(h, v.session, waiting))
            && (id in e.running && !e.running[id].persistenceFailed ==> AllBatched(waiting))
  {
    InvHolds(h, states, ops, envs, i);
    InvHolds(h, states, ops, envs, i + 1);
    NothingUrgentWaits(h, states, ops, envs, i);
    var e, e', env := states[i], states[i + 1], envs[i];
    assert Step(h, e, ops[i], env, e');
    RestartIsEmpty(h, e, env, e');
    RestartedRow(h, e, env, e', id);
    BeforeTheCrash(h, e, id);
    hide Inv, RecoveredValue, Core, Fold, Step, Run;
    AfterTheCrash(h, e', id);
  }

  lemma BeforeTheCrash(h: Harness, e: Engine, id: string)
    requires Inv(h, e) && UrgentOk(e) && id in e.tables.sessions
    ensures var v, waiting := e.tables.sessions[id], if id in e.live then e.live[id].events else [];
            && Effective(e, id) == v.(session := Fold(h, v.session, waiting))
            && (id in e.running && !e.running[id].persistenceFailed ==> AllBatched(waiting))
  {
    SessionsOkAt(h, e, id);
  }

  lemma AfterTheCrash(h: Harness, e: Engine, id: string)
    requires Inv(h, e) && e.live == map[] && id in e.tables.sessions && e.tables.sessions[id].status != Running
    ensures id !in e.running
  {
    SessionsOkAt(h, e, id);
  }

  lemma RestartedRow(h: Harness, e: Engine, env: Env, e': Engine, id: string)
    requires Lawful(h) && Inv(h, e) && Restarted(h, e, env, e') && id in e.tables.sessions
    ensures id in e'.tables.sessions && e'.tables.sessions[id].status != Running
    ensures var v := e.tables.sessions[id];
            Core(e'.tables.sessions[id]) == Core(if v.status == Running then RecoveredValue(h, v, env) else v)
  {
    var ids: seq<string> :| (forall id :: id in ids <==> id in e.tables.sessions)
      && (forall i, j :: 0 <= i < j < |ids| ==> ids[i] != ids[j]) && e' == RecoveredAll(h, Booted(e), ids, env);
    forall x | x in e.tables.sessions ensures e.tables.sessions[x].session.id == x { StoredFacts(h, e, x); }
    hide Inv, RecoveredAll;
    RecoveredAt(h, Booted(e), ids, env, id);
    var v := e.tables.sessions[id];
    if v.status == Running {
      SettledRun(h, v, Interrupted, Some(RESTARTED), v.updatedAt, env.newId);
      SameParts(e'.tables.sessions[id], RecoveredValue(h, v, env));
    }
  }

  // ------------------------------------------------------- a failed rebinding

  ghost predicate MapsAgree(e: Engine, id: string) {
    id in e.running <==> id in e.tables.sessions && e.tables.sessions[id].status == Running
  }

  /** What is left of a turn whose provider could not be rebound after it had settled. */
  ghost predicate LeftBehind(e: Engine, id: string, r: string) {
    && id !in e.running && id !in e.live && !e.closing
    && id in e.tables.sessions && e.tables.sessions[id].status != Running && e.tables.sessions[id].session.id == id
    && id in e.retryTimers && e.retryTimers[id] == r && r in e.turns
    && e.turns[r].sessionId == id && e.turns[r].phase == RetryArmed
  }

  /** If rebinding throws once the turn is stored as over, a retry is armed for it. */
  lemma FailedBindingLeavesATimer(h: Harness, e: Engine, r: string, env: Env)
    requires Lawful(h) && Inv(h, e) && r in e.turns && e.turns[r].phase == Stopping && !e.closing
    requires forall s, at :: h.stop(s, at).providerSessionId == s.providerSessionId
    requires e.turns[r].sessionId in e.tables.sessions
    requires Effective(e, e.turns[r].sessionId).session.providerSessionId.Some?
    requires env.bindThrows && !env.stopFails && !env.flushFails && !env.saveFails
    ensures LeftBehind(Stopped(h, e, r, env), e.turns[r].sessionId, r)
    ensures Stopped(h, e, r, env).switching == e.switching && Stopped(h, e, r, env).used == e.used
  {
    var id, error := e.turns[r].sessionId, e.turns[r].error;
    TurnRuns(h, e, r);
    hide Inv, Flushed, StoppedFlushed, Core, LeftBehind;
    FlushKeeps(h, e, id, env.now, env.flushFails);
    var flushed := Flushed(e, id, env.now, env.flushFails);
    TurnRuns(h, flushed, r);
    SameParts(flushed.tables.sessions[id], Effective(e, id));
    UnboundIsLeftBehind(h, flushed.(live := flushed.live - {id}), id, r, error, env);
  }

  lemma UnboundIsLeftBehind(h: Harness, e: Engine, id: string, r: string, error: Option<string>, env: Env)
    requires Lawful(h) && forall s, at :: h.stop(s, at).providerSessionId == s.providerSessionId
    requires id in e.tables.sessions && e.tables.sessions[id].session.id == id && e.tables.sessions[id].runId == Some(r)
    requires e.tables.sessions[id].session.providerSessionId.Some? && !e.closing && id !in e.live
    requires r in e.turns && e.turns[r].sessionId == id && id !in e.retryTimers && env.bindThrows && !env.saveFails
    ensures LeftBehind(StoppedFlushed(h, e, id, r, error, env), id, r)
    ensures var e' := StoppedFlushed(h, e, id, r, error, env); e'.switching == e.switching && e'.used == e.used
  {
    SettledRow(h, e, e.tables.sessions[id], id, error, env);
    hide SettledTurn;
  }

  lemma SettledRow(h: Harness, e: Engine, latest: HostSession, id: string, error: Option<string>, env: Env)
    requires Lawful(h) && forall s, at :: h.stop(s, at).providerSessionId == s.providerSessionId
    requires id in e.tables.sessions && latest.session.id == id
    ensures var e' := SettledTurn(h, e, latest, id, error, env);
            && e'.tables.sessions[id].status != Running && e'.tables.sessions[id].session.id == id
            && e'.tables.sessions[id].session.providerSessionId == latest.session.providerSessionId
            && e'.running == e.running && e'.retryTimers == e.retryTimers && e'.turns == e.turns
            && e'.closing == e.closing && e'.live == e.live && e'.switching == e.switching && e'.used == e.used
  {
    hide SettledValue, Message, SavedAs, Lawful, Core;
    var message := Message(e, id, error);
    var failed := id in e.running && e.running[id].persistenceFailed;
    var status := if e.closing || failed then Interrupted else Idle;
    var value := SettledValue(h, latest, status, message, env.now, env.newId);
    SettledKeepsBinding(h, latest, status, message, env.now, env.newId);
    var record := Settled(error, id in e.running && e.running[id].cancelled);
    SavedCore(e, value, record, env.now);
    SaveMemory(e, value, record, env.now);
    SaveLive(e, value, record, env.now);
    SameParts(SavedAs(e, value, record, env.now).tables.sessions[id], value);
  }

  lemma SettledKeepsBinding(h: Harness, v: HostSession, status: Status, message: Option<string>, at: Time, newId: string)
    requires Lawful(h) && forall s, at :: h.stop(s, at).providerSessionId == s.providerSessionId
    ensures var w := SettledValue(h, v, status, message, at, newId);
            && w.status == status && w.session.id == v.session.id
            && w.session.providerSessionId == v.session.providerSessionId
  {
    SettledKeepsId(h, v, status, message, at, newId);
    hide SettledBlocks;
    assert SettledValue(h, v, status, message, at, newId).session.providerSessionId == h.stop(v.session, at).providerSessionId;
  }

  lemma SaveMemory(e: Engine, v: HostSession, record: Record, now: Time)
    ensures var e' := SavedAs(e, v, record, now);
            && e'.running == e.running && e'.retryTimers == e.retryTimers && e'.turns == e.turns
            && e'.closing == e.closing && e'.switching == e.switching && e'.used == e.used
  {
    hide Saved;
  }

  lemma IssuedIsCommitted(h: Harness, e: Engine, c: Command, env: Env)
    requires !c.Create? && c.sessionId !in e.live && !Replayed(e, c) && Issued(h, e, c, env).1.Ok?
    ensures Outcome(h, e, c, env).Some?
    ensures Issued(h, e, c, env).0 == Committed(e, c, Outcome(h, e, c, env).value, env)
  {
    assert Flushed(e, c.sessionId, env.now, env.flushFails) == e;
    hide Committed, Outcome, Flushed;
  }

  /** The armed retry then takes a newer run away: the session is stored as running, and
      the host has forgotten it. */
  lemma LeftBehindDropsANewerRun(h: Harness, e: Engine, id: string, r: string, c: Command, env: Env, later: Env)
    requires Lawful(h) && LeftBehind(e, id, r) && (c.Send? || c.Compact?) && c.sessionId == id && !Replayed(e, c)
    requires Issued(h, e, c, env).1.Ok? && env.runId !in e.turns
    requires !later.stopFails && !later.bindThrows && !later.saveFails
    ensures var e1 := Issued(h, e, c, env).0;
            && id in e1.running && e1.running[id].runId == env.runId
            && exists e2, e3 :: Step(h, e1, RetryDue(id), later, e2) && Step(h, e2, RetryStopped(r), later, e3)
                 && id in e3.tables.sessions && e3.tables.sessions[id].status == Running
                 && id !in e3.running && id !in e3.live
  {
    IssuedIsCommitted(h, e, c, env);
    StartsRunning(h, e, c, env);
    CommittedRun(e, c, Outcome(h, e, c, env).value, env);
    hide Issued, Committed, Outcome, RetriedStop, Step, Lawful;
    var e1 := Issued(h, e, c, env).0;
    var e2 := e1.(retryTimers := e1.retryTimers - {id}, turns := e1.turns[r := e1.turns[r].(phase := RetryStopping)]);
    NewerRunIsDropped(h, e2, id, r, later);
    RetrySteps(h, e1, id, r, later, e2);
  }

  lemma RetrySteps(h: Harness, e1: Engine, id: string, r: string, env: Env, e2: Engine)
    requires id in e1.retryTimers && e1.retryTimers[id] == r && r in e1.turns
    requires e2 == e1.(retryTimers := e1.retryTimers - {id}, turns := e1.turns[r := e1.turns[r].(phase := RetryStopping)])
    ensures Step(h, e1, RetryDue(id), env, e2) && Step(h, e2, RetryStopped(r), env, RetriedStop(h, e2, r, env))
  {
    hide RetriedStop;
  }

  lemma NewerRunIsDropped(h: Harness, e: Engine, id: string, r: string, env: Env)
    requires r in e.turns && e.turns[r].sessionId == id && id in e.tables.sessions && e.tables.sessions[id].runId != Some(r)
    requires id in e.live && e.live[id].events == [] && !env.stopFails && !env.bindThrows && !env.saveFails
    ensures var e' := RetriedStop(h, e, r, env);
            && e'.tables.sessions == e.tables.sessions && id !in e'.running && id !in e'.live
  {
    assert Flushed(e, id, env.now, env.flushFails) == e;
    hide Flushed, InterruptedRun;
  }

  lemma StartsRunning(h: Harness, e: Engine, c: Command, env: Env)
    requires (c.Send? || c.Compact?) && Outcome(h, e, c, env).Some?
    ensures var v := Outcome(h, e, c, env).value;
            v.status == Running && v.runId == Some(env.runId) && c.sessionId in e.tables.sessions
            && v.session.id == e.tables.sessions[c.sessionId].session.id
  {
    var v := e.tables.sessions[c.sessionId];
    if c.Send? { SentShape(h, v, c, env); } else { PromptedShape(h, v, c, [], v.session.blocks, env); }
    hide Sent, Prompted;
  }

  lemma CommittedRun(e: Engine, c: Command, v: HostSession, env: Env)
    requires (c.Send? || c.Compact?) && v.status == Running && v.runId == Some(env.runId) && v.session.id !in e.live
    ensures var id, e' := v.session.id, Committed(e, c, v, env);
            && id in e'.tables.sessions && e'.tables.sessions[id].status == Running && e'.tables.sessions[id].runId == Some(env.runId)
            && e'.retryTimers == e.retryTimers && e'.closing == e.closing
            && e'.running == e.running[id := Active(env.runId, false, false)]
            && id in e'.live && e'.live[id] == Live(e'.tables.sessions[id], [])
            && e'.turns == e.turns[env.runId := Turn(id, c.commandId, Queued, None)]
  {
    var id := v.session.id;
    var input := InputOf(c, v, env);
    CommittedIs(e, c, v, env);
    var first := WithReceipt(NewIds(e, env), c, v);
    var written := Written(first, input, HostSessions.Commanded(c));
    WrittenCore(first, input, HostSessions.Commanded(c));
    SameParts(written.tables.sessions[id], input);
    WrittenFrame(first, input, HostSessions.Commanded(c));
    hide Written, Committed, Core;
  }
}
