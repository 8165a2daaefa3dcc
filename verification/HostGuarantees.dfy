/** What a client of the host can rely on, in every run of `host/engine.ts`. */
module HostGuarantees {
  import opened Wrappers
  import opened HostSessions
  import opened DeltaSync
  import opened HostStores
  import opened HostSteps
  import opened HostRuns

  /** States and the steps between them, in the order the event loop takes them. */
  ghost predicate Run(h: Harness, states: seq<Engine>, ops: seq<Op>, envs: seq<Env>) {
    && |states| == |ops| + 1 && |envs| == |ops|
    && forall i :: 0 <= i < |ops| ==> Step(h, states[i], ops[i], envs[i], states[i + 1]) && Fair(states[i], ops[i], envs[i])
  }

  function NewHost(projects: map<string, string>): Engine {
    Engine(Tables(map[], map[], map[]), projects, map[], map[], map[], map[], {}, false, [], {}, map[])
  }

  lemma NewHostIsFine(h: Harness, projects: map<string, string>)
    ensures Inv(h, NewHost(projects))
  {
    forall id ensures SessionOk(h, NewHost(projects), id) {}
  }

  lemma {:induction false} InvHolds(h: Harness, states: seq<Engine>, ops: seq<Op>, envs: seq<Env>, i: nat)
    requires Lawful(h) && Run(h, states, ops, envs) && Inv(h, states[0]) && i < |states|
    ensures Inv(h, states[i])
    decreases i
  {
    hide Inv, Step, Fair, Lawful;
    if i > 0 {
      InvHolds(h, states, ops, envs, i - 1);
      StepKeepsInv(h, states[i - 1], ops[i - 1], envs[i - 1], states[i]);
    }
  }

  // -------------------------------------------------------------- life cycle

  /** The running map is the set of sessions stored as running, run by run; a session
      that waits has no plan being built and at most one draft, a running one none. */
  lemma LifeCycle(h: Harness, states: seq<Engine>, ops: seq<Op>, envs: seq<Env>, i: nat, id: string)
    requires Lawful(h) && Run(h, states, ops, envs) && Inv(h, states[0]) && i < |states|
    ensures var e := states[i];
            && (id in e.running <==> id in e.tables.sessions && e.tables.sessions[id].status == Running)
            && (id in e.running ==> e.tables.sessions[id].runId == Some(e.running[id].runId))
            && (id in e.live ==> id in e.running)
            && (id in e.tables.sessions ==>
                  var v := e.tables.sessions[id];
                  if v.status == Running then !HasDraft(v.session.blocks)
                  else NoBuilding(v.session.blocks) && Drafts(v.session.blocks) <= 1)
  {
    InvHolds(h, states, ops, envs, i);
    SessionsOkAt(h, states[i], id);
    if id in states[i].tables.sessions { DraftsCount(states[i].tables.sessions[id].session.blocks); }
  }

  /** A command that starts a run finds nothing of an earlier one. */
  lemma NewRunReplacesNothing(h: Harness, e: Engine, c: Command, env: Env)
    requires Lawful(h) && Inv(h, e) && (c.Send? || c.Compact?) && !Replayed(e, c) && Issued(h, e, c, env).1.Ok?
    ensures c.sessionId !in e.running && c.sessionId !in e.live && c.sessionId !in e.retryTimers
    ensures forall r :: r in e.turns ==> e.turns[r].sessionId != c.sessionId
    ensures var e' := Issued(h, e, c, env).0;
            && c.sessionId in e'.running && e'.running[c.sessionId] == Active(env.runId, false, false)
            && env.runId in e'.turns && e'.turns[env.runId] == Turn(c.sessionId, c.commandId, Queued, None)
  {
    hide Inv, Flushed, HostSteps.Commanded, Stored, Quiet, Shape;
    FlushKeeps(h, e, c.sessionId, env.now, env.flushFails);
    var flushed := Flushed(e, c.sessionId, env.now, env.flushFails);
    var v := flushed.tables.sessions[c.sessionId];
    StoredFacts(h, flushed, c.sessionId);
    CommandedShape(h, flushed, v, c, env);
    SessionsNotRunning(h, flushed, c.sessionId);
  }

  lemma SessionsNotRunning(h: Harness, e: Engine, id: string)
    requires Inv(h, e) && id in e.tables.sessions && e.tables.sessions[id].status != Running
    ensures id !in e.running && id !in e.live && id !in e.retryTimers
    ensures forall r :: r in e.turns ==> e.turns[r].sessionId != id
  {
    SessionsOkAt(h, e, id);
    forall r | r in e.turns ensures e.turns[r].sessionId != id { assert TurnOk(e, r); }
  }

  lemma ListenersRun(h: Harness, e: Engine, id: string, runId: string)
    requires Inv(h, e) && Accepts(e, id, runId)
    ensures id in e.running && id in e.tables.sessions && e.running[id].runId == runId
    ensures e.tables.sessions[id].runId == Some(runId)
  {
    SessionsOkAt(h, e, id);
  }

  /** Events of a finished or replaced run change nothing; those of the current run change
      no other session. */
  lemma OnlyTheCurrentRunIsHeard(h: Harness, e: Engine, id: string, runId: string, event: HarnessEvent, env: Env)
    requires Lawful(h) && Inv(h, e)
    ensures var e' := Emitted(h, e, id, runId, event, env);
            && (e' != e ==> id in e.running && id in e.tables.sessions && e.running[id].runId == runId
                            && e.tables.sessions[id].runId == Some(runId))
            && forall x :: x != id ==> SameSession(e, e', x)
  {
    hide Inv, Flushed, Core, Quiet, SameSession;
    forall x ensures SameSession(e, e, x) { Itself(e, x); }
    if Accepts(e, id, runId) && h.apply(e.live[id].value.session, event).Some? {
      ListenersRun(h, e, id, runId);
      AcceptedKeeps(h, e, id, event);
      var live := e.live[id];
      var next := e.(live := e.live[id := Live(live.value.(session := h.apply(live.value.session, event).value),
                                              live.events + [event])]);
      FlushKeeps(h, next, id, env.now, env.flushFails);
      forall x | x != id ensures SameSession(e, Emitted(h, e, id, runId, event, env), x) {
        OtherSession(e, next, id, x, env);
      }
    }
  }

  lemma Itself(e: Engine, x: string)
    ensures SameSession(e, e, x)
  {
  }

  lemma OtherSession(e: Engine, next: Engine, id: string, x: string, env: Env)
    requires x != id && next == e.(live := next.live) && SameAt(e.live, next.live, x)
    requires SameSession(next, Flushed(next, id, env.now, env.flushFails), x)
    ensures SameSession(e, next, x) && SameSession(e, TimerFlushed(next, id, env.now, env.flushFails), x)
  {
    hide Flushed, LogOf;
  }

  // ------------------------------------------------------------ at most once

  predicate KeepsWord(e: Engine, e': Engine) {
    e'.tables.receipts == e.tables.receipts && e'.dispatched == e.dispatched
  }

  lemma FlushFrame(e: Engine, id: string, now: Time, fails: bool)
    ensures KeepsWord(e, Flushed(e, id, now, fails))
  {
    hide Stamped, Logged;
  }

  lemma RefreshFrame(e: Engine, id: string)
    ensures KeepsWord(e, Refreshed(e, id)) && Refreshed(e, id).tables == e.tables
  {
  }

  lemma SaveFrame(e: Engine, v: HostSession, record: Record, now: Time)
    ensures KeepsWord(e, SavedAs(e, v, record, now))
  {
    hide Stamped, Logged;
  }

  lemma {:induction false} RecoverFrame(h: Harness, e: Engine, ids: seq<string>, env: Env)
    ensures KeepsWord(e, RecoveredAll(h, e, ids, env))
    decreases |ids|
  {
    if ids != [] {
      var n := |ids| - 1;
      RecoverFrame(h, e, ids[..n], env);
      var mid := RecoveredAll(h, e, ids[..n], env);
      hide SettledValue, SavedAs;
      if ids[n] in mid.tables.sessions {
        SaveFrame(mid, RecoveredValue(h, mid.tables.sessions[ids[n]], env), InterruptedTurn(None), env.now);
      }
    }
  }

  /** What has been acknowledged or handed out stays so. */
  ghost predicate Remembers(e: Engine, e': Engine) {
    && (forall c :: c in e.tables.receipts ==> c in e'.tables.receipts && e'.tables.receipts[c] == e.tables.receipts[c])
    && e.dispatched <= e'.dispatched
  }

  lemma CommittedRemembers(e: Engine, c: Command, v: HostSession, env: Env)
    requires c.commandId !in e.tables.receipts
    ensures Remembers(e, Committed(e, c, v, env))
    ensures var e' := Committed(e, c, v, env);
            c.commandId in e'.tables.receipts && e'.tables.receipts[c.commandId] == Entry(c, ReceiptOf(c, v))
  {
    hide Saved;
    RefreshFrame(Stored(e, c, v, env), v.session.id);
  }

  lemma IssuedRemembers(h: Harness, e: Engine, c: Command, env: Env)
    ensures Remembers(e, Issued(h, e, c, env).0)
    ensures !e.closing && !Replayed(e, c) && Issued(h, e, c, env).1.Ok? ==>
              c.commandId in Issued(h, e, c, env).0.tables.receipts
              && Issued(h, e, c, env).0.tables.receipts[c.commandId] == Entry(c, Issued(h, e, c, env).1.value)
    ensures !Replayed(e, c) && Issued(h, e, c, env).1.Err? ==> c.commandId !in Issued(h, e, c, env).0.tables.receipts
  {
    hide Flushed, Committed, Outcome;
    if !e.closing && !Replayed(e, c) {
      var flushed := if c.Create? then e else Flushed(e, c.sessionId, env.now, env.flushFails);
      if !c.Create? { FlushFrame(e, c.sessionId, env.now, env.flushFails); }
      var value := Outcome(h, flushed, c, env);
      if value.Some? { CommittedRemembers(flushed, c, value.value, env); }
    }
  }

  lemma FailedFrame(e: Engine, id: string, r: string)
    ensures KeepsWord(e, Failed(e, id, r))
  {
  }

  lemma StoppedRemembers(h: Harness, e: Engine, r: string, env: Env)
    requires r in e.turns
    ensures KeepsWord(e, Stopped(h, e, r, env))
  {
    hide Flushed, SettledTurn, Failed;
    var id, error := e.turns[r].sessionId, e.turns[r].error;
    FailedFrame(e, id, r);
    if !env.stopFails && !FlushThrows(e, id, env.flushFails) {
      FlushFrame(e, id, env.now, env.flushFails);
      var flushed := Flushed(e, id, env.now, env.flushFails);
      var gone := flushed.(live := flushed.live - {id});
      FailedFrame(gone, id, r);
      if id in gone.tables.sessions && !(gone.tables.sessions[id].runId == Some(r) && env.saveFails) {
        var latest := gone.tables.sessions[id];
        SettledTurnFrame(h, gone, latest, id, error, env);
        var saved := if latest.runId == Some(r) then SettledTurn(h, gone, latest, id, error, env) else gone;
        FailedFrame(saved.(running := saved.running - {id}), id, r);
      }
    }
  }

  lemma SettledTurnFrame(h: Harness, e: Engine, latest: HostSession, id: string, error: Option<string>, env: Env)
    requires id in e.tables.sessions
    ensures KeepsWord(e, SettledTurn(h, e, latest, id, error, env))
  {
    hide SavedAs, SettledValue, Message;
    var failed := id in e.running && e.running[id].persistenceFailed;
    SaveFrame(e, SettledValue(h, latest, if e.closing || failed then Interrupted else Idle, Message(e, id, error),
                              env.now, env.newId), Settled(error, id in e.running && e.running[id].cancelled), env.now);
  }

  lemma RetriedRemembers(h: Harness, e: Engine, r: string, env: Env)
    requires r in e.turns
    ensures KeepsWord(e, RetriedStop(h, e, r, env))
  {
    hide Flushed, SavedAs, SettledValue, Failed;
    var id := e.turns[r].sessionId;
    FailedFrame(e, id, r);
    if !env.stopFails && !FlushThrows(e, id, env.flushFails) {
      FlushFrame(e, id, env.now, env.flushFails);
      var flushed := Flushed(e, id, env.now, env.flushFails);
      FailedFrame(flushed, id, r);
      if id in flushed.tables.sessions {
        var latest := flushed.tables.sessions[id];
        var settles := latest.runId == Some(r) && latest.status == Running;
        if !(settles && env.saveFails) {
          var value := SettledValue(h, latest, Interrupted, Some(STORAGE_FAILED), latest.updatedAt, env.newId);
          var record := InterruptedTurn(Some("persistence failure"));
          SaveFrame(flushed, value, record, env.now);
          var saved := if settles then SavedAs(flushed, value, record, env.now) else flushed;
          FailedFrame(saved.(live := saved.live - {id}, running := saved.running - {id}), id, r);
        }
      }
    }
  }

  lemma WriteFrame(e: Engine, input: HostSession, record: Record)
    ensures KeepsWord(e, Written(e, input, record))
  {
    hide Stamped, Logged;
  }

  /** Flush, save, let the live session follow. */
  lemma EditFrame(e: Engine, id: string, input: HostSession, record: Record, env: Env)
    ensures Remembers(e, Flushed(e, id, env.now, env.flushFails))
    ensures Remembers(e, Refreshed(Written(Flushed(e, id, env.now, env.flushFails), input, record), id))
  {
    FlushFrame(e, id, env.now, env.flushFails);
    hide Flushed, Written;
    var flushed := Flushed(e, id, env.now, env.flushFails);
    WriteFrame(flushed, input, record);
    RefreshFrame(Written(flushed, input, record), id);
  }

  lemma UpdatedRemembers(e: Engine, id: string, patch: Patch, env: Env)
    ensures Remembers(e, Updated(e, id, patch, env))
  {
    var flushed := Flushed(e, id, env.now, env.flushFails);
    hide Flushed, Written, Refreshed;
    if id in flushed.tables.sessions {
      EditFrame(e, id, Patched(flushed.tables.sessions[id], patch), Metadata(patch), env);
    } else {
      FlushFrame(e, id, env.now, env.flushFails);
    }
  }

  lemma TitledRemembers(e: Engine, id: string, expected: string, title: string, env: Env)
    ensures Remembers(e, Titled(e, id, expected, title, env))
  {
    var flushed := Flushed(e, id, env.now, env.flushFails);
    hide Flushed, Written, Refreshed;
    FlushFrame(e, id, env.now, env.flushFails);
    if id in flushed.tables.sessions {
      var v := flushed.tables.sessions[id];
      EditFrame(e, id, v.(session := v.session.(title := title), revision := v.revision + 1, updatedAt := env.now),
                GeneratedTitle, env);
    }
  }

  lemma BranchedRemembers(e: Engine, id: string, branch: string, env: Env)
    ensures Remembers(e, Branched(e, id, branch, env))
  {
    var flushed := Flushed(e, id, env.now, env.flushFails);
    hide Flushed, Written, Refreshed;
    FlushFrame(e, id, env.now, env.flushFails);
    if id in flushed.tables.sessions {
      var v := flushed.tables.sessions[id];
      EditFrame(e, id, v.(autoWorktreeBranch := None, session := v.session.(branch := Some(branch)),
                          revision := v.revision + 1, updatedAt := env.now), GeneratedBranch(branch), env);
    }
  }

  lemma StepRemembers(h: Harness, e: Engine, op: Op, env: Env, e': Engine)
    requires Step(h, e, op, env, e')
    ensures Remembers(e, e')
  {
    hide Issued, Emitted, Stopped, RetriedStop, Updated, Titled, Branched, Restarted, Flushed;
    hide TimerFlushed, Started, Removed, SwitchBegun, Closed;
    match op
    case Issue(c) => IssuedRemembers(h, e, c, env);
    case Emit(id, runId, event) => EmitRemembers(h, e, id, runId, event, env);
    case Timer(id) => TimerFrame(e, id, env.now, env.flushFails);
    case StartTurn(r) => StartedRemembers(e, r);
    case Delete(id) => OthersRemember(e, id, env);
    case BeginSwitch(id) => OthersRemember(e, id, env);
    case Close => OthersRemember(e, "", env);
    case TurnStopped(r) => if r in e.turns { StoppedRemembers(h, e, r, env); }
    case RetryStopped(r) => if r in e.turns { RetriedRemembers(h, e, r, env); }
    case Update(id, patch) => UpdatedRemembers(e, id, patch, env);
    case NameTitle(id, expected, title) => TitledRemembers(e, id, expected, title, env);
    case NameBranch(id, branch) => BranchedRemembers(e, id, branch, env);
    case Restart => RestartRemembers(h, e, env, e');
    case _ =>
  }

  lemma TimerFrame(e: Engine, id: string, now: Time, fails: bool)
    ensures KeepsWord(e, TimerFlushed(e, id, now, fails))
  {
    hide Flushed;
    FlushFrame(e, id, now, fails);
  }

  lemma StartedRemembers(e: Engine, r: string)
    ensures Remembers(e, Started(e, r))
  {
  }

  lemma OthersRemember(e: Engine, id: string, env: Env)
    ensures Remembers(e, Removed(e, id, env)) && Remembers(e, SwitchBegun(e, id)) && Remembers(e, Closed(e))
  {
  }

  lemma EmitRemembers(h: Harness, e: Engine, id: string, runId: string, event: HarnessEvent, env: Env)
    ensures Remembers(e, Emitted(h, e, id, runId, event, env))
  {
    hide Flushed;
    if Accepts(e, id, runId) && h.apply(e.live[id].value.session, event).Some? {
      var live := e.live[id];
      var next := e.(live := e.live[id := Live(live.value.(session := h.apply(live.value.session, event).value),
                                              live.events + [event])]);
      FlushFrame(next, id, env.now, env.flushFails);
    }
  }

  lemma RestartRemembers(h: Harness, e: Engine, env: Env, e': Engine)
    requires Restarted(h, e, env, e')
    ensures Remembers(e, e')
  {
    var ids: seq<string> :| (forall id :: id in ids <==> id in e.tables.sessions)
      && (forall i, j :: 0 <= i < j < |ids| ==> ids[i] != ids[j]) && e' == RecoveredAll(h, Booted(e), ids, env);
    RecoverFrame(h, Booted(e), ids, env);
  }

  lemma {:induction false} RunRemembers(h: Harness, states: seq<Engine>, ops: seq<Op>, envs: seq<Env>, i: nat, j: nat)
    requires Run(h, states, ops, envs) && i <= j < |states|
    ensures Remembers(states[i], states[j])
    decreases j - i
  {
    hide Step, Fair;
    if i < j {
      StepRemembers(h, states[i], ops[i], envs[i], states[i + 1]);
      RunRemembers(h, states, ops, envs, i + 1, j);
    }
  }

  /** Once a command is accepted, its id changes nothing any more: the same payload gets
      the same receipt, another one is refused, across retries, crashes and restarts. */
  lemma AcceptedOnce(h: Harness, states: seq<Engine>, ops: seq<Op>, envs: seq<Env>, i: nat, j: nat, c: Command, d: Command)
    requires Run(h, states, ops, envs) && i < j < |ops| && ops[i] == Issue(c) && ops[j] == Issue(d)
    requires d.commandId == c.commandId && Issued(h, states[i], c, envs[i]).1.Ok?
    ensures states[j + 1] == states[j]
    ensures Issued(h, states[j], d, envs[j]).1
            == if states[j].closing then Err(HostStopping)
               else if d == c then Issued(h, states[i], c, envs[i]).1 else Err(IdReused)
  {
    assert Step(h, states[i], ops[i], envs[i], states[i + 1]) && Step(h, states[j], ops[j], envs[j], states[j + 1]);
    IssuedRemembers(h, states[i], c, envs[i]);
    RunRemembers(h, states, ops, envs, i + 1, j);
    hide Flushed, Outcome, Committed, Run;
    if Replayed(states[i], c) {
      assert states[i + 1] == states[i];
    }
  }

  /** A provider gets a command at most once, counting everything it ever got. */
  lemma DispatchedAtMostOnce(h: Harness, states: seq<Engine>, ops: seq<Op>, envs: seq<Env>, i: nat, j: nat)
    requires Lawful(h) && Run(h, states, ops, envs) && Inv(h, states[0]) && i <= j < |states|
    ensures states[i].dispatched <= states[j].dispatched
    ensures var d := states[j].dispatched;
            && (forall x, y :: 0 <= x < y < |d| ==> d[x] != d[y])
            && (forall x :: 0 <= x < |d| ==> d[x] in states[j].tables.receipts)
  {
    InvHolds(h, states, ops, envs, j);
    RunRemembers(h, states, ops, envs, i, j);
  }

  // --------------------------------------------------------- branch switching

  /** While a branch switch holds a project, none of its sessions runs. */
  lemma SwitchExcludesRuns(h: Harness, states: seq<Engine>, ops: seq<Op>, envs: seq<Env>, i: nat, id: string)
    requires Lawful(h) && Run(h, states, ops, envs) && Inv(h, states[0]) && i < |states|
    requires id in states[i].tables.sessions && states[i].tables.sessions[id].projectId in states[i].switching
    ensures states[i].tables.sessions[id].status != Running && id !in states[i].running && id !in states[i].live
  {
    InvHolds(h, states, ops, envs, i);
    SessionsOkAt(h, states[i], id);
  }

  /** The summaries that guard a switch tell whether a session of the project runs. */
  lemma BusyIsSeenInSummaries(e: Engine, projectId: string)
    ensures IsBusy(e, projectId) <==>
              exists s :: s in ProjectSummaries(e, projectId) && s.status == Running
  {
    if IsBusy(e, projectId) {
      var id :| id in e.tables.sessions && e.tables.sessions[id].projectId == projectId
                && e.tables.sessions[id].status == Running;
      assert SummaryOf(e.tables.sessions[id]) in ProjectSummaries(e, projectId);
    }
  }

  function ProjectSummaries(e: Engine, projectId: string): set<Summary> {
    set id | id in e.tables.sessions && e.tables.sessions[id].projectId == projectId :: SummaryOf(e.tables.sessions[id])
  }
}
