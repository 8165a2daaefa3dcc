/** What a cancelled run, a run whose writes failed, and a closing host can rely on, in every
    run of `host/engine.ts`. */
module HostCancels {
  import opened Wrappers
  import opened HostSessions
  import opened DeltaSync
  import opened HostStores
  import opened HostSteps
  import opened HostRuns
  import opened HostGuarantees
  import opened HostStreams
  import opened HostFailures
  import opened HostRebinding
  import opened HostEndings

  // --------------------------------------------------------------- one step

  predicate IsOver(turn: Turn) { turn.phase != Queued && turn.phase != InProvider }

  /** A turn goes on: once its provider is done with it, with what the provider reported. */
  predicate SameTurn(turn: Turn, turn': Turn) {
    && turn'.sessionId == turn.sessionId && turn'.commandId == turn.commandId
    && (IsOver(turn) ==> IsOver(turn') && turn'.error == turn.error)
  }

  /** A waiting turn is an old one, or that of a new command. */
  predicate OldTurns(e: Engine, e': Engine, op: Op, env: Env) {
    forall r :: r in e'.turns ==>
      || (r in e.turns && SameTurn(e.turns[r], e'.turns[r]))
      || (op.Issue? && r == env.runId && e'.turns[r].commandId !in e.tables.receipts)
  }

  /** Only a queued turn that nobody has cancelled is handed to a provider, and only by a
      host that is not closing. */
  predicate SendsOnlyQueued(e: Engine, e': Engine, op: Op) {
    || e'.dispatched == e.dispatched
    || (op.StartTurn? && op.runId in e.turns && e.turns[op.runId].phase == Queued && !e.closing
        && !(e.turns[op.runId].sessionId in e.running && e.running[e.turns[op.runId].sessionId].cancelled)
        && e'.dispatched == e.dispatched + [e.turns[op.runId].commandId])
  }

  /** At most one run is new, or newly cancelled, by a new command. */
  predicate OneNewRun(e: Engine, e': Engine, op: Op, env: Env) {
    && e.used <= e'.used
    && (forall id :: id in e'.running ==>
          GoesOn(e, e', id) || (op.Issue? && op.command.commandId !in e.tables.receipts && Marks(e, e', op.command, id, env)))
    && forall x, y :: x in e'.running && y in e'.running && !GoesOn(e, e', x) && !GoesOn(e, e', y) ==> x == y
  }

  ghost predicate Moves(e: Engine, op: Op, env: Env, e': Engine) {
    && OneNewRun(e, e', op, env) && OldTurns(e, e', op, env) && SendsOnlyQueued(e, e', op)
    && (e.closing && !op.Restart? ==> e'.closing && (e.retryTimers == map[] ==> e'.retryTimers == map[]))
  }

  lemma CalmMoves(e: Engine, op: Op, env: Env, e': Engine)
    requires Calmly(e, e')
    ensures Moves(e, op, env, e')
  {
  }

  /** Only the phases of turns, their errors and the timers of retries changed, or turns went. */
  predicate FewerTurns(k: Engine, e': Engine) {
    && e'.running == k.running && e'.used == k.used && e'.dispatched == k.dispatched
    && (k.closing ==> e'.closing && (k.retryTimers == map[] ==> e'.retryTimers == map[]))
    && forall r :: r in e'.turns ==> r in k.turns && SameTurn(k.turns[r], e'.turns[r])
  }

  lemma FewerMove(e: Engine, op: Op, env: Env, k: Engine, e': Engine)
    requires Calmly(e, k) && FewerTurns(k, e')
    ensures Moves(e, op, env, e')
  {
  }

  lemma EndMoves(e: Engine, op: Op, env: Env, k: Engine, id: string, r: string)
    requires Calmly(e, k) && (r in k.turns ==> IsOver(k.turns[r]))
    ensures Moves(e, op, env, Failed(k, id, r)) && Moves(e, op, env, Done(k, r))
  {
    FailedHasFewer(k, id, r);
    hide Calmly, FewerTurns, Moves, Failed, Done;
    FewerMove(e, op, env, k, Failed(k, id, r));
    FewerMove(e, op, env, k, Done(k, r));
  }

  lemma FailedHasFewer(k: Engine, id: string, r: string)
    requires r in k.turns ==> IsOver(k.turns[r])
    ensures FewerTurns(k, Failed(k, id, r)) && FewerTurns(k, Done(k, r))
  {
  }

  lemma AddMoves(e: Engine, c: Command, id: string, env: Env, e': Engine)
    requires Adds(e, e', c, id, env) && c.commandId !in e.tables.receipts
    ensures Moves(e, Issue(c), env, e')
  {
  }

  lemma RestartMoves(h: Harness, e: Engine, env: Env, e': Engine)
    requires Restarted(h, e, env, e')
    ensures Moves(e, Restart, env, e')
  {
    var ids: seq<string> :| (forall id :: id in ids <==> id in e.tables.sessions)
      && (forall i, j :: 0 <= i < j < |ids| ==> ids[i] != ids[j]) && e' == RecoveredAll(h, Booted(e), ids, env);
    RecoveryIsCalm(h, Booted(e), ids, env);
  }

  lemma {:induction false} RecoveryIsCalm(h: Harness, e: Engine, ids: seq<string>, env: Env)
    ensures Calmly(e, RecoveredAll(h, e, ids, env))
    decreases |ids|
  {
    hide Calmly, SavedAs, SettledValue;
    ItselfIsCalm(e);
    if ids != [] {
      var n := |ids| - 1;
      RecoveryIsCalm(h, e, ids[..n], env);
      var mid := RecoveredAll(h, e, ids[..n], env);
      ItselfIsCalm(mid);
      if ids[n] in mid.tables.sessions {
        SaveIsCalm(mid, RecoveredValue(h, mid.tables.sessions[ids[n]], env), InterruptedTurn(None), env.now);
      }
      Chain(e, mid, RecoveredOne(h, mid, ids[n], env));
    }
  }

  lemma StartMoves(e: Engine, r: string, env: Env)
    ensures Moves(e, StartTurn(r), env, Started(e, r))
  {
    ItselfIsCalm(e);
    if r in e.turns && e.turns[r].phase == Queued {
      StartedIs(e, r);
      var turn := Started(e, r).turns[r];
      assert turn.phase == InProvider ==> SendsOnlyQueued(e, Started(e, r), StartTurn(r));
      hide Started;
      assert FewerTurns(e, Moved(e, r, turn));
    }
  }

  lemma CloseMoves(e: Engine, env: Env)
    ensures Moves(e, Close, env, Closed(e))
  {
    ItselfIsCalm(e);
    FewerMove(e, Close, env, e, Closed(e));
  }

  lemma WaitingMoves(h: Harness, e: Engine, op: Op, env: Env, e': Engine)
    requires Step(h, e, op, env, e') && (op.ProviderDone? || op.RetryDue?)
    ensures Moves(e, op, env, e')
  {
    ItselfIsCalm(e);
    if op.ProviderDone? {
      AnswerHasFewer(h, e, op.runId, op.error, env, e');
    } else {
      DueHasFewer(h, e, op.sessionId, env, e');
    }
    hide Step, FewerTurns, Moves;
    FewerMove(e, op, env, e, e');
  }

  lemma AnswerHasFewer(h: Harness, e: Engine, r: string, error: Option<string>, env: Env, e': Engine)
    requires Step(h, e, ProviderDone(r, error), env, e')
    ensures FewerTurns(e, e')
  {
    assert e' == e || (r in e.turns && e' == Moved(e, r, e.turns[r].(phase := Stopping, error := error)));
    hide Step;
  }

  lemma DueHasFewer(h: Harness, e: Engine, id: string, env: Env, e': Engine)
    requires Step(h, e, RetryDue(id), env, e')
    ensures FewerTurns(e, e')
  {
  }

  lemma StepMoves(h: Harness, e: Engine, op: Op, env: Env, e': Engine)
    requires Step(h, e, op, env, e')
    ensures Moves(e, op, env, e')
  {
    hide Issued, Emitted, TimerFlushed, Stopped, RetriedStop, Restarted, Flushed, FlushThrows, Edited, FlushedEdit;
    hide Calmly, Moves, Adds, Ends, StopEnd, RetryEnd, Started, Closed, Removed, SwitchBegun;
    var t, m := e.turns, e.retryTimers;
    match op
    case Issue(c) =>
      var added, id := IssueWith(h, e, c, env, t, m);
      IssueMoves(h, e, c, env, added, id);
    case Emit(id, runId, event) => EmitCalmly(h, e, id, runId, event, env); CalmMoves(e, op, env, e');
    case Timer(id) => TimerCalmly(e, id, env.now, env.flushFails); CalmMoves(e, op, env, e');
    case StartTurn(r) => StartMoves(e, r, env);
    case Close => CloseMoves(e, env);
    case TurnStopped(r) =>
      if r in e.turns && e.turns[r].phase == Stopping {
        StopWith(h, e, r, env, t, m);
        StopEnds(h, e, r, env);
        var (k, fails) := StopEnd(h, e, r, env);
        EndsWhat(k, fails, e.turns[r].sessionId, r, e', Stopped(h, e, r, Quietly(env)));
        CalmlyWhat(e, k);
        EndMoves(e, op, env, k, e.turns[r].sessionId, r);
      } else {
        StaysStill(e, op, env);
      }
    case RetryStopped(r) =>
      if r in e.turns && e.turns[r].phase == RetryStopping {
        RetryWith(h, e, r, env, t, m);
        RetryEnds(h, e, r, env);
        var (k, fails) := RetryEnd(h, e, r, env);
        EndsWhat(k, fails, e.turns[r].sessionId, r, e', RetriedStop(h, e, r, Quietly(env)));
        CalmlyWhat(e, k);
        EndMoves(e, op, env, k, e.turns[r].sessionId, r);
      } else {
        StaysStill(e, op, env);
      }
    case Update(_, _) => EditMoves(h, e, op, env, e');
    case NameTitle(_, _, _) => EditMoves(h, e, op, env, e');
    case NameBranch(_, _) => EditMoves(h, e, op, env, e');
    case Delete(id) => RemoveCalmly(e, id, env); CalmMoves(e, op, env, e');
    case BeginSwitch(p) => SwitchWith(e, p, env, t, m); CalmMoves(e, op, env, e');
    case EndSwitch(p) => EndSwitchWith(e, p, env, t, m); CalmMoves(e, op, env, e');
    case Restart => RestartMoves(h, e, env, e');
    case _ => WaitingMoves(h, e, op, env, e');
  }

  lemma StaysStill(e: Engine, op: Op, env: Env)
    ensures Moves(e, op, env, e)
  {
  }

  lemma EditMoves(h: Harness, e: Engine, op: Op, env: Env, e': Engine)
    requires Step(h, e, op, env, e') && (op.Update? || op.NameTitle? || op.NameBranch?)
    ensures Moves(e, op, env, e')
  {
    hide Calmly, Moves, Flushed, FlushThrows, Edited, Patched, ValidPatch, NewTitle, NewBranch;
    var t, m := e.turns, e.retryTimers;
    match op
    case Update(id, patch) =>
      FlushedEditWith(e, id, v => if ValidPatch(patch) then Some(Patched(v, patch)) else None, Metadata(patch), env, t, m);
      CalmMoves(e, op, env, e');
    case NameTitle(id, expected, title) =>
      FlushedEditWith(e, id, v => NewTitle(v, expected, title, env), GeneratedTitle, env, t, m);
      CalmMoves(e, op, env, e');
    case NameBranch(id, branch) =>
      FlushedEditWith(e, id, v => Some(NewBranch(v, branch, env)), GeneratedBranch(branch), env, t, m);
      CalmMoves(e, op, env, e');
  }

  /** A command whose turn is added was new. */
  lemma IssueMoves(h: Harness, e: Engine, c: Command, env: Env, added: bool, id: string)
    requires var e' := Issued(h, e, c, env).0;
             if added then Adds(e, e', c, id, env) else Calmly(e, e')
    ensures Moves(e, Issue(c), env, Issued(h, e, c, env).0)
  {
    hide Calmly, Adds, Moves, Flushed, IssuedFlushed, FlushThrows;
    if added && c.commandId !in e.tables.receipts {
      AddMoves(e, c, id, env, Issued(h, e, c, env).0);
    } else if added {
      assert Issued(h, e, c, env).0 == e;
      StaysStill(e, Issue(c), env);
    } else {
      CalmMoves(e, Issue(c), env, Issued(h, e, c, env).0);
    }
  }

  // ------------------------------------------------------------- cancelled runs

  /** Run `r` of session `id` is marked, if it goes on at all. */
  predicate IsCancelled(e: Engine, id: string, r: string) {
    r in e.used && (id in e.running && e.running[id].runId == r ==> e.running[id].cancelled)
  }

  predicate HasFailed(e: Engine, id: string, r: string) {
    r in e.used && (id in e.running && e.running[id].runId == r ==> e.running[id].persistenceFailed)
  }

  lemma MarksStay(e: Engine, op: Op, env: Env, e': Engine, id: string, r: string)
    requires Moves(e, op, env, e') && env.runId !in e.used
    ensures IsCancelled(e, id, r) ==> IsCancelled(e', id, r)
    ensures HasFailed(e, id, r) ==> HasFailed(e', id, r)
  {
  }

  lemma {:induction false} MarksStayThroughout(h: Harness, states: seq<Engine>, ops: seq<Op>, envs: seq<Env>,
                                               i: nat, j: nat, id: string, r: string)
    requires Run(h, states, ops, envs) && i <= j < |states|
    ensures IsCancelled(states[i], id, r) ==> IsCancelled(states[j], id, r)
    ensures HasFailed(states[i], id, r) ==> HasFailed(states[j], id, r)
    decreases j - i
  {
    hide Step, Moves, IsCancelled, HasFailed;
    if i < j {
      MarksStayThroughout(h, states, ops, envs, i, j - 1, id, r);
      assert Step(h, states[j - 1], ops[j - 1], envs[j - 1], states[j]) && Fair(states[j - 1], ops[j - 1], envs[j - 1]);
      StepMoves(h, states[j - 1], ops[j - 1], envs[j - 1], states[j]);
      MarksStay(states[j - 1], ops[j - 1], envs[j - 1], states[j], id, r);
    }
  }

  /** A cancellation that is accepted, and not for the second time. */
  ghost predicate Cancels(h: Harness, e: Engine, op: Op, env: Env) {
    op.Issue? && op.command.Cancel? && !e.closing && !Replayed(e, op.command) && Issued(h, e, op.command, env).1.Ok?
  }

  /** It was of the run that goes on, and marks that. */
  lemma CancelMarks(h: Harness, e: Engine, c: Command, env: Env)
    requires Lawful(h) && Inv(h, e) && Cancels(h, e, Issue(c), env)
    ensures var id, e' := c.sessionId, Issued(h, e, c, env).0;
            && id in e.running && e.running[id].runId == c.runId && c.runId in e.used
            && id in e'.running && e'.running[id] == e.running[id].(cancelled := true) && e'.turns == e.turns
            && c.runId in e'.used && e'.dispatched == e.dispatched
  {
    var id := c.sessionId;
    FlushKeeps(h, e, id, env.now, env.flushFails);
    var flushed := Flushed(e, id, env.now, env.flushFails);
    hide Inv, Flushed, FlushThrows, Committed;
    assert Outcome(h, flushed, c, env).Some?;
    SessionsOkRow(h, flushed, id);
    SessionsOkRow(h, e, id);
    MarkedByCommit(flushed, c, Outcome(h, flushed, c, env).value, env);
  }

  lemma SessionsOkRow(h: Harness, e: Engine, id: string)
    requires Inv(h, e)
    ensures id in e.tables.sessions && e.tables.sessions[id].status == Running ==>
              && id in e.running && e.tables.sessions[id].runId == Some(e.running[id].runId)
              && e.running[id].runId in e.used
    ensures id in e.tables.sessions ==> e.tables.sessions[id].session.id == id
  {
    SessionsOkAt(h, e, id);
  }

  lemma MarkedByCommit(e: Engine, c: Command, v: HostSession, env: Env)
    requires c.Cancel? && v.session.id in e.running
    ensures var id, e' := v.session.id, Committed(e, c, v, env);
            && id in e'.running && e'.running[id] == e.running[id].(cancelled := true) && e'.turns == e.turns
            && e.used <= e'.used && e'.dispatched == e.dispatched
  {
    var id, input, record := v.session.id, InputOf(c, v, env), HostSessions.Commanded(c);
    CommittedIs(e, c, v, env);
    var first := WithReceipt(NewIds(e, env), c, v);
    assert first.running == e.running && first.turns == e.turns && first.dispatched == e.dispatched && e.used <= first.used;
    hide Committed, InputOf, WithReceipt, NewIds, Written, SameElsewhere;
    WrittenFrame(first, input, record);
    InputIsNamed(c, v, env);
    RefreshKeepsTables(Written(first, input, record), id);
    EffectOfCancel(Written(first, input, record), c, id, env);
  }

  lemma EffectOfCancel(e: Engine, c: Command, id: string, env: Env)
    requires c.Cancel? && id in e.tables.sessions && id in e.running
    ensures var e' := Effect(Refreshed(e, id), c, id, env);
            && id in e'.running && e'.running[id] == e.running[id].(cancelled := true) && e'.turns == e.turns
            && e'.used == e.used && e'.dispatched == e.dispatched
  {
    RefreshKeepsRuns(e, id);
    hide Refreshed;
  }

  lemma RefreshKeepsRuns(e: Engine, id: string)
    ensures var e' := Refreshed(e, id);
            e'.running == e.running && e'.turns == e.turns && e'.used == e.used && e'.dispatched == e.dispatched
            && e'.tables == e.tables
  {
  }

  /** In every run, an accepted cancellation marks the current run at once, and it stays
      marked until it is over. */
  lemma CancelledRunsStayCancelled(h: Harness, states: seq<Engine>, ops: seq<Op>, envs: seq<Env>, i: nat, j: nat)
    requires Lawful(h) && Run(h, states, ops, envs) && Inv(h, states[0]) && i < j < |states|
    requires Cancels(h, states[i], ops[i], envs[i])
    ensures var id, r := ops[i].command.sessionId, ops[i].command.runId;
            && id in states[i].running && states[i].running[id].runId == r
            && id in states[i + 1].running && states[i + 1].running[id].runId == r && states[i + 1].running[id].cancelled
            && (id in states[j].running && states[j].running[id].runId == r ==> states[j].running[id].cancelled)
  {
    InvHolds(h, states, ops, envs, i);
    assert Step(h, states[i], ops[i], envs[i], states[i + 1]);
    hide Inv, Lawful, Run, Issued;
    var c := ops[i].command;
    CancelMarks(h, states[i], c, envs[i]);
    MarksStayThroughout(h, states, ops, envs, i + 1, j, c.sessionId, c.runId);
  }

  // ------------------------------------------------------- runs have own names

  ghost predicate RunsDiffer(e: Engine) {
    forall x, y :: x in e.running && y in e.running && e.running[x].runId == e.running[y].runId ==> x == y
  }

  lemma DifferenceStays(h: Harness, e: Engine, op: Op, env: Env, e': Engine)
    requires Inv(h, e) && RunsDiffer(e) && Moves(e, op, env, e') && env.runId !in e.used
    ensures RunsDiffer(e')
  {
    forall x | x in e.running ensures e.running[x].runId != env.runId { SessionsOkAt(h, e, x); }
    hide Inv;
  }

  lemma {:induction false} RunsDifferThroughout(h: Harness, states: seq<Engine>, ops: seq<Op>, envs: seq<Env>, i: nat)
    requires Lawful(h) && Run(h, states, ops, envs) && Inv(h, states[0]) && RunsDiffer(states[0]) && i < |states|
    ensures RunsDiffer(states[i])
    decreases i
  {
    hide Inv, Lawful, Step, Moves, RunsDiffer;
    if i > 0 {
      RunsDifferThroughout(h, states, ops, envs, i - 1);
      InvHolds(h, states, ops, envs, i - 1);
      assert Step(h, states[i - 1], ops[i - 1], envs[i - 1], states[i]) && Fair(states[i - 1], ops[i - 1], envs[i - 1]);
      StepMoves(h, states[i - 1], ops[i - 1], envs[i - 1], states[i]);
      DifferenceStays(h, states[i - 1], ops[i - 1], envs[i - 1], states[i]);
    }
  }

  // -------------------------------------------------------- what is never sent

  /** The command of run `r` has not been handed to a provider, and will not be. */
  ghost predicate IsNeverSent(e: Engine, id: string, r: string, command: string) {
    && IsCancelled(e, id, r) && command in e.tables.receipts && command !in e.dispatched
    && forall x :: x in e.turns && e.turns[x].commandId == command ==> x == r && e.turns[x].sessionId == id
  }

  lemma NeverSentStays(h: Harness, e: Engine, op: Op, env: Env, e': Engine, id: string, r: string, command: string)
    requires Inv(h, e) && Moves(e, op, env, e') && Remembers(e, e') && env.runId !in e.used
    requires IsNeverSent(e, id, r, command)
    ensures IsNeverSent(e', id, r, command)
  {
    MarksStay(e, op, env, e', id, r);
    if e'.dispatched != e.dispatched {
      assert TurnOk(e, op.runId);
    }
    hide Inv;
  }

  lemma {:induction false} NeverSentThroughout(h: Harness, states: seq<Engine>, ops: seq<Op>, envs: seq<Env>,
                                               i: nat, j: nat, id: string, r: string, command: string)
    requires Lawful(h) && Run(h, states, ops, envs) && Inv(h, states[0]) && i <= j < |states|
    requires IsNeverSent(states[i], id, r, command)
    ensures IsNeverSent(states[j], id, r, command)
    decreases j - i
  {
    hide Inv, Lawful, Step, Moves, IsNeverSent, Remembers;
    if i < j {
      NeverSentThroughout(h, states, ops, envs, i, j - 1, id, r, command);
      InvHolds(h, states, ops, envs, j - 1);
      assert Step(h, states[j - 1], ops[j - 1], envs[j - 1], states[j]) && Fair(states[j - 1], ops[j - 1], envs[j - 1]);
      StepMoves(h, states[j - 1], ops[j - 1], envs[j - 1], states[j]);
      StepRemembers(h, states[j - 1], ops[j - 1], envs[j - 1], states[j]);
      NeverSentStays(h, states[j - 1], ops[j - 1], envs[j - 1], states[j], id, r, command);
    }
  }

  /** A turn that is cancelled while it is queued never reaches its provider. */
  lemma CancelledTurnsAreNotSent(h: Harness, states: seq<Engine>, ops: seq<Op>, envs: seq<Env>, i: nat, j: nat)
    requires Lawful(h) && Run(h, states, ops, envs) && Inv(h, states[0]) && RunsDiffer(states[0]) && i < j < |states|
    requires Cancels(h, states[i], ops[i], envs[i])
    requires ops[i].command.runId in states[i].turns && states[i].turns[ops[i].command.runId].phase == Queued
    ensures states[i].turns[ops[i].command.runId].commandId !in states[j].dispatched
  {
    InvHolds(h, states, ops, envs, i);
    assert Step(h, states[i], ops[i], envs[i], states[i + 1]);
    RunsDifferThroughout(h, states, ops, envs, i);
    hide Inv, Lawful, Run, Issued, RunsDiffer;
    NeverSentStarts(h, states[i], ops[i].command, envs[i]);
    hide Step;
    var id, r := ops[i].command.sessionId, ops[i].command.runId;
    NeverSentThroughout(h, states, ops, envs, i + 1, j, id, r, states[i].turns[r].commandId);
  }

  lemma NeverSentStarts(h: Harness, e: Engine, c: Command, env: Env)
    requires Lawful(h) && Inv(h, e) && RunsDiffer(e) && Cancels(h, e, Issue(c), env)
    requires c.runId in e.turns && e.turns[c.runId].phase == Queued
    ensures IsNeverSent(Issued(h, e, c, env).0, c.sessionId, c.runId, e.turns[c.runId].commandId)
  {
    CancelMarks(h, e, c, env);
    QueuedIsOwn(h, e, c.sessionId, c.runId);
    hide Inv, Issued;
    IssuedRemembers(h, e, c, env);
  }

  lemma QueuedIsOwn(h: Harness, e: Engine, id: string, r: string)
    requires Inv(h, e) && RunsDiffer(e)
    requires r in e.turns && e.turns[r].phase == Queued && id in e.running && e.running[id].runId == r
    ensures e.turns[r].commandId in e.tables.receipts && e.turns[r].commandId !in e.dispatched
    ensures forall x :: x in e.turns && e.turns[x].commandId == e.turns[r].commandId ==> x == r && e.turns[x].sessionId == id
  {
    assert TurnOk(e, r);
  }

  /** A run with an old name is an old run. */
  lemma {:induction false} OldNamesAreOldRuns(h: Harness, states: seq<Engine>, ops: seq<Op>, envs: seq<Env>,
                                              i: nat, j: nat, id: string, r: string)
    requires Run(h, states, ops, envs) && i <= j < |states| && r in states[i].used
    requires id in states[j].running && states[j].running[id].runId == r
    ensures id in states[i].running && states[i].running[id].runId == r
    decreases j - i
  {
    hide Step, Moves;
    if i < j {
      assert Step(h, states[i], ops[i], envs[i], states[i + 1]) && Fair(states[i], ops[i], envs[i]);
      StepMoves(h, states[i], ops[i], envs[i], states[i + 1]);
      OldNameStep(states[i], ops[i], envs[i], states[i + 1], id, r);
      OldNamesAreOldRuns(h, states, ops, envs, i + 1, j, id, r);
    }
  }

  lemma OldNameStep(e: Engine, op: Op, env: Env, e': Engine, id: string, r: string)
    requires Moves(e, op, env, e') && r in e.used && env.runId !in e.used
    ensures r in e'.used
    ensures id in e'.running && e'.running[id].runId == r ==> id in e.running && e.running[id].runId == r
  {
  }

  /** A turn of run `r` is one of the session that had the run at step `i`. */
  lemma TurnIsOfItsSession(h: Harness, states: seq<Engine>, ops: seq<Op>, envs: seq<Env>, i: nat, j: nat, id: string,
                           r: string)
    requires Lawful(h) && Run(h, states, ops, envs) && Inv(h, states[0]) && RunsDiffer(states[0]) && i <= j < |states|
    requires id in states[i].running && states[i].running[id].runId == r && r in states[i].used
    requires r in states[j].turns
    ensures states[j].turns[r].sessionId == id
  {
    RunsDifferThroughout(h, states, ops, envs, i);
    InvHolds(h, states, ops, envs, j);
    TurnRuns(h, states[j], r);
    assert TurnOk(states[j], r);
    hide Inv, Lawful, Run;
    OldNamesAreOldRuns(h, states, ops, envs, i, j, states[j].turns[r].sessionId, r);
  }

  // ------------------------------------------------- what cancelled runs end as

  /** When a cancelled turn is over and stored, by a host that goes on and could write all of
      it, its last block says who stopped it, its plans are to be built again, and so does
      the log. */
  lemma CancelledTurnsSaySo(h: Harness, states: seq<Engine>, ops: seq<Op>, envs: seq<Env>, i: nat, j: nat)
    requires Lawful(h) && Run(h, states, ops, envs) && Inv(h, states[0]) && RunsDiffer(states[0]) && i < j < |ops|
    requires Cancels(h, states[i], ops[i], envs[i])
    requires ops[j] == TurnStopped(ops[i].command.runId) && Settles(states[j], ops[i].command.runId, envs[j])
    requires !states[j].closing
    requires var id := states[j].turns[ops[i].command.runId].sessionId;
             id in states[j].running ==> !states[j].running[id].persistenceFailed
    ensures var id, r, e' := ops[i].command.sessionId, ops[i].command.runId, states[j + 1];
            && id in states[j].tables.sessions && id in e'.tables.sessions && e'.tables.sessions[id].status == Idle
            && SessionEnds(h.stop(Effective(states[j], id).session, envs[j].now), e'.tables.sessions[id].session, false,
                           Some("Stopped by you."), envs[j].newId)
            && LoggedLast(e', id, Settled(states[j].turns[r].error, true), envs[j].now)
  {
    var id, r := ops[i].command.sessionId, ops[i].command.runId;
    CancelledRunsStayCancelled(h, states, ops, envs, i, j);
    CancelledIsUsed(h, states, ops, envs, i);
    TurnIsOfItsSession(h, states, ops, envs, i, j, id, r);
    var notice := TurnsEndAsTheyWent(h, states, ops, envs, j, r);
    hide Inv, Lawful, Run, SessionEnds, Cancels, Settles, LoggedLast;
  }

  lemma CancelledIsUsed(h: Harness, states: seq<Engine>, ops: seq<Op>, envs: seq<Env>, i: nat)
    requires Lawful(h) && Run(h, states, ops, envs) && Inv(h, states[0]) && i < |ops| && Cancels(h, states[i], ops[i], envs[i])
    ensures ops[i].command.runId in states[i].used
  {
    InvHolds(h, states, ops, envs, i);
    hide Inv, Lawful, Run, Issued;
    CancelMarks(h, states[i], ops[i].command, envs[i]);
  }

  /** A run is cancelled only by a command that names it. */
  lemma {:induction false} OnlyCommandsCancel(h: Harness, states: seq<Engine>, ops: seq<Op>, envs: seq<Env>, j: nat,
                                             id: string) returns (i: nat)
    requires Lawful(h) && Run(h, states, ops, envs) && Inv(h, states[0]) && j < |states|
    requires id in states[j].running && states[j].running[id].cancelled && states[0].running == map[]
    ensures i < j && ops[i].Issue? && ops[i].command.Cancel? && ops[i].command.commandId !in states[i].tables.receipts
    ensures id in states[i].running && states[i].running[id].runId == states[j].running[id].runId
    ensures !states[i].running[id].cancelled
    ensures id in states[i + 1].running && states[i + 1].running[id].cancelled
    ensures states[i + 1].running[id].runId == states[i].running[id].runId
    decreases j
  {
    hide Inv, Lawful, Step, Moves;
    assert j > 0;
    assert Step(h, states[j - 1], ops[j - 1], envs[j - 1], states[j]);
    StepMoves(h, states[j - 1], ops[j - 1], envs[j - 1], states[j]);
    MarkIsOldOrNew(states[j - 1], ops[j - 1], envs[j - 1], states[j], id);
    if id in states[j - 1].running && states[j - 1].running[id].cancelled {
      i := OnlyCommandsCancel(h, states, ops, envs, j - 1, id);
    } else {
      i := j - 1;
    }
  }

  lemma MarkIsOldOrNew(e: Engine, op: Op, env: Env, e': Engine, id: string)
    requires Moves(e, op, env, e') && id in e'.running && e'.running[id].cancelled
    ensures id in e.running && e.running[id].runId == e'.running[id].runId
    ensures !e.running[id].cancelled ==>
              op.Issue? && op.command.Cancel? && op.command.commandId !in e.tables.receipts
  {
  }

  // --------------------------------------------------------- failures, closing

  /** A run one of whose batches could not be written when it was due is marked. */
  lemma FailedWritesMark(h: Harness, e: Engine, op: Op, env: Env, e': Engine)
    requires Lawful(h) && Inv(h, e) && Step(h, e, op, env, e') && op.Timer?
    requires env.flushFails && op.sessionId in e.live && e.live[op.sessionId].events != []
    ensures var id := op.sessionId;
            id in e.running && id in e'.running && e'.running[id] == e.running[id].(persistenceFailed := true)
            && HasFailed(e', id, e.running[id].runId) && e.running[id].runId in e.used
  {
    SessionsOkAt(h, e, op.sessionId);
  }

  /** And when it ends, the user is told. */
  lemma FailedWritesAreTold(h: Harness, states: seq<Engine>, ops: seq<Op>, envs: seq<Env>, i: nat, j: nat)
    requires Lawful(h) && Run(h, states, ops, envs) && Inv(h, states[0]) && RunsDiffer(states[0]) && i < j < |ops|
    requires ops[i].Timer? && envs[i].flushFails
    requires ops[i].sessionId in states[i].live && states[i].live[ops[i].sessionId].events != []
    requires ops[i].sessionId in states[i].running
    requires var r := states[i].running[ops[i].sessionId].runId;
             && ops[j] == TurnStopped(r) && Settles(states[j], r, envs[j])
             && !states[j].closing
    ensures var id, e' := ops[i].sessionId, states[j + 1];
            && id in states[j].tables.sessions && id in e'.tables.sessions && e'.tables.sessions[id].status == Interrupted
            && SessionEnds(h.stop(Effective(states[j], id).session, envs[j].now), e'.tables.sessions[id].session, false,
                           Some("Session storage failed during this turn. Inspect its work before continuing."),
                           envs[j].newId)
  {
    var id, r := ops[i].sessionId, states[i].running[ops[i].sessionId].runId;
    InvHolds(h, states, ops, envs, i);
    assert Step(h, states[i], ops[i], envs[i], states[i + 1]);
    FailedWritesMark(h, states[i], ops[i], envs[i], states[i + 1]);
    hide Inv, Lawful, Run, SessionEnds, Settles, LoggedLast, Step;
    TurnIsOfItsSession(h, states, ops, envs, i, j, id, r);
    MarksStayThroughout(h, states, ops, envs, i + 1, j, id, r);
    var notice := TurnsEndAsTheyWent(h, states, ops, envs, j, r);
  }

  /** A host that is closing hands nothing to a provider any more. */
  lemma {:induction false} ClosingSendsNothing(h: Harness, states: seq<Engine>, ops: seq<Op>, envs: seq<Env>, i: nat, j: nat)
    requires Run(h, states, ops, envs) && i <= j < |states| && states[i].closing
    requires forall k :: i <= k < j ==> !ops[k].Restart?
    ensures states[j].closing && states[j].dispatched == states[i].dispatched
    ensures states[i].retryTimers == map[] ==> states[j].retryTimers == map[]
    decreases j - i
  {
    hide Step, Moves;
    if i < j {
      ClosingSendsNothing(h, states, ops, envs, i, j - 1);
      assert Step(h, states[j - 1], ops[j - 1], envs[j - 1], states[j]);
      StepMoves(h, states[j - 1], ops[j - 1], envs[j - 1], states[j]);
      ClosingMoves(states[j - 1], ops[j - 1], envs[j - 1], states[j]);
    }
  }

  /** And from when it begins to close it has no retry armed. */
  lemma ClosingArmsNothing(h: Harness, states: seq<Engine>, ops: seq<Op>, envs: seq<Env>, i: nat, j: nat)
    requires Run(h, states, ops, envs) && i < j < |states| && ops[i] == Close
    requires forall k :: i <= k < j ==> !ops[k].Restart?
    ensures states[j].closing && states[j].retryTimers == map[]
  {
    assert Step(h, states[i], Close, envs[i], states[i + 1]);
    hide Run, Step;
    ClosedHasNoTimers(h, states[i], envs[i], states[i + 1]);
    ClosingSendsNothing(h, states, ops, envs, i + 1, j);
  }

  lemma ClosedHasNoTimers(h: Harness, e: Engine, env: Env, e': Engine)
    requires Step(h, e, Close, env, e')
    ensures e'.closing && e'.retryTimers == map[]
  {
  }

  /** A queued turn is handed to its provider if and only if nobody cancelled it and the
      host is not closing. Otherwise it goes straight to its end. */
  lemma TurnsAreSentIff(h: Harness, e: Engine, r: string, env: Env, e': Engine)
    requires Step(h, e, StartTurn(r), env, e') && r in e.turns && e.turns[r].phase == Queued
    ensures var id := e.turns[r].sessionId;
            var sends := !e.closing && !(id in e.running && e.running[id].cancelled);
            && e'.dispatched == (if sends then e.dispatched + [e.turns[r].commandId] else e.dispatched)
            && r in e'.turns && e'.turns[r].phase == (if sends then InProvider else Stopping)
            && e'.turns[r].error == e.turns[r].error
  {
  }

  // ------------------------------------------------------- what a provider said

  /** The turn, if it is still there, is over with `error`. */
  predicate IsOverWith(e: Engine, r: string, error: Option<string>) {
    r in e.used && (r in e.turns ==> IsOver(e.turns[r]) && e.turns[r].error == error)
  }

  lemma OverStays(e: Engine, op: Op, env: Env, e': Engine, r: string, error: Option<string>)
    requires Moves(e, op, env, e') && env.runId !in e.used && IsOverWith(e, r, error)
    ensures IsOverWith(e', r, error)
  {
  }

  lemma {:induction false} OverStaysThroughout(h: Harness, states: seq<Engine>, ops: seq<Op>, envs: seq<Env>,
                                               i: nat, j: nat, r: string, error: Option<string>)
    requires Run(h, states, ops, envs) && i <= j < |states| && IsOverWith(states[i], r, error)
    ensures IsOverWith(states[j], r, error)
    decreases j - i
  {
    hide Step, Moves, IsOverWith;
    if i < j {
      OverStaysThroughout(h, states, ops, envs, i, j - 1, r, error);
      assert Step(h, states[j - 1], ops[j - 1], envs[j - 1], states[j]) && Fair(states[j - 1], ops[j - 1], envs[j - 1]);
      StepMoves(h, states[j - 1], ops[j - 1], envs[j - 1], states[j]);
      OverStays(states[j - 1], ops[j - 1], envs[j - 1], states[j], r, error);
    }
  }

  /** What the provider of a turn reported is what the turn ends with, however often its
      end is tried. */
  lemma ReportsAreKept(h: Harness, states: seq<Engine>, ops: seq<Op>, envs: seq<Env>, i: nat, j: nat)
    requires Lawful(h) && Run(h, states, ops, envs) && Inv(h, states[0]) && i < j < |states|
    requires ops[i].ProviderDone? && ops[i].runId in states[i].turns && states[i].turns[ops[i].runId].phase == InProvider
    requires ops[i].runId in states[j].turns
    ensures states[j].turns[ops[i].runId].error == ops[i].error
  {
    InvHolds(h, states, ops, envs, i);
    assert Step(h, states[i], ops[i], envs[i], states[i + 1]);
    assert TurnOk(states[i], ops[i].runId);
    hide Inv, Lawful, Run;
    OverStaysThroughout(h, states, ops, envs, i + 1, j, ops[i].runId, ops[i].error);
  }

  lemma ClosingMoves(e: Engine, op: Op, env: Env, e': Engine)
    requires Moves(e, op, env, e') && e.closing && !op.Restart?
    ensures e'.closing && e'.dispatched == e.dispatched && (e.retryTimers == map[] ==> e'.retryTimers == map[])
  {
  }
}
