/** How `host/engine.ts` leaves a turn: what the last blocks of the session say once it has
    ended, failed or been cut off by a restart. */
module HostEndings {
  import opened Wrappers
  import opened HostSessions
  import opened DeltaSync
  import opened HostStores
  import opened HostSteps
  import opened HostRuns
  import opened HostGuarantees
  import opened HostStreams
  import opened HostFailures

  // ----------------------------------------------------------- ended sessions

  predicate IsBeingBuilt(b: Block) { b.role == PlanRole && b.plan.Some? && b.plan.value.status == Building }

  /** A plan that was being built is built if the turn went well, and is to be built again
      otherwise. No other block changes. */
  predicate BlockEnds(b: Block, after: Block, built: bool) {
    if IsBeingBuilt(b) then
      && after.plan.Some? && after == b.(plan := after.plan)
      && after.plan.value.approvedText == b.plan.value.approvedText
      && after.plan.value.status == (if built then Built else Ready)
    else after == b
  }

  predicate IsNotice(b: Block, id: string, text: string) {
    b.id == id && b.role == System && b.text == text && !b.streaming && !b.draft && b.plan.None? && b.approval.None?
  }

  /** `after` is `stopped`, the session with its stream ended, with its plans settled and
      one notice added, if there is something to say. */
  ghost predicate SessionEnds(stopped: Session, after: Session, built: bool, notice: Option<string>, newId: string) {
    var blocks, count := after.blocks, |stopped.blocks|;
    && after == stopped.(blocks := blocks)
    && |blocks| == (if notice.Some? then count + 1 else count)
    && (forall k :: 0 <= k < count ==> BlockEnds(stopped.blocks[k], blocks[k], built))
    && (notice.Some? ==> IsNotice(blocks[count], newId, notice.value))
  }

  /** What the user is told: why the host cut the turn off, that it could not store it, that
      the user stopped it, or else what went wrong. */
  ghost predicate Tells(closing: bool, active: Active, error: Option<string>, notice: Option<string>) {
    if closing then notice == Some("Host stopped. This turn was interrupted.")
    else if active.persistenceFailed then
      notice == Some("Session storage failed during this turn. Inspect its work before continuing.")
    else if active.cancelled then notice == Some("Stopped by you.")
    else if error.Some? && error.value != "" then notice == error
    else notice.None?
  }

  lemma SettledEnds(h: Harness, v: HostSession, status: Status, message: Option<string>, at: Time, newId: string)
    ensures var w, notice := SettledValue(h, v, status, message, at, newId),
                             if message.Some? && message.value != "" then message else None;
            && w.status == status && w.runId == v.runId && w.projectId == v.projectId && w.archived == v.archived
            && w.pinned == v.pinned && w.autoWorktreeBranch == v.autoWorktreeBranch
            && SessionEnds(h.stop(v.session, at), w.session, status == Idle && notice.None?, notice, newId)
  {
  }

  /** The row but for what its session holds and whether it runs. */
  predicate SameRow(v: HostSession, w: HostSession) {
    && w.runId == v.runId && w.projectId == v.projectId && w.archived == v.archived
    && w.pinned == v.pinned && w.autoWorktreeBranch == v.autoWorktreeBranch
  }

  lemma EndsOfCore(h: Harness, w: HostSession, v: HostSession, status: Status, message: Option<string>, at: Time, newId: string)
    requires Core(w) == Core(SettledValue(h, v, status, message, at, newId))
    ensures var notice := if message.Some? && message.value != "" then message else None;
            && w.status == status && SameRow(v, w)
            && SessionEnds(h.stop(v.session, at), w.session, status == Idle && notice.None?, notice, newId)
  {
    SettledEnds(h, v, status, message, at, newId);
    hide SettledValue, SessionEnds;
    SameParts(w, SettledValue(h, v, status, message, at, newId));
  }

  /** The end of a turn was stored. */
  ghost predicate Settles(e: Engine, r: string, env: Env) {
    && r in e.turns && e.turns[r].phase == Stopping && !env.stopFails && !env.saveFails
    && !FlushThrows(e, e.turns[r].sessionId, env.flushFails)
  }

  /** How the end of a turn is stored. */
  ghost predicate EndsAsItWent(h: Harness, e: Engine, r: string, env: Env, e': Engine, notice: Option<string>)
    requires r in e.turns
  {
    var id, error := e.turns[r].sessionId, e.turns[r].error;
    && id in e.tables.sessions && id in e.running && e.running[id].runId == r
    && id in e'.tables.sessions && id !in e'.running
    && var v, w, active := Effective(e, id), e'.tables.sessions[id], e.running[id];
       && SameRow(v, w) && w.runId == Some(r)
       && w.status == (if e.closing || active.persistenceFailed then Interrupted else Idle)
       && Tells(e.closing, active, error, notice)
       && SessionEnds(h.stop(v.session, env.now), w.session, notice.None?, notice, env.newId)
       && LoggedLast(e', id, Settled(error, active.cancelled), env.now)
  }

  /** The record of the last save, and its time. */
  ghost predicate LoggedLast(e: Engine, id: string, record: Record, now: Time) {
    && id in e.tables.sessions && e.tables.sessions[id].updatedAt == now
    && e.tables.sessions[id].revision in LogOf(e.tables, id)
    && LogOf(e.tables, id)[e.tables.sessions[id].revision] == record
  }

  /** In every run, a turn that ends is stored with everything it streamed. Its plans count
      as built if and only if nobody stopped it, nothing went wrong and everything could be
      stored; if there is anything to say of it, a notice says that, and the log keeps what
      the provider reported. */
  lemma TurnsEndAsTheyWent(h: Harness, states: seq<Engine>, ops: seq<Op>, envs: seq<Env>, i: nat, r: string)
    returns (notice: Option<string>)
    requires Lawful(h) && Run(h, states, ops, envs) && Inv(h, states[0]) && i < |ops|
    requires ops[i] == TurnStopped(r) && Settles(states[i], r, envs[i])
    ensures EndsAsItWent(h, states[i], r, envs[i], states[i + 1], notice)
  {
    InvHolds(h, states, ops, envs, i);
    assert Step(h, states[i], ops[i], envs[i], states[i + 1]) && Fair(states[i], ops[i], envs[i]);
    hide Inv, Lawful, Run, Stopped, EndsAsItWent;
    notice := TurnEnds(h, states[i], r, envs[i]);
  }

  function Said(message: Option<string>): Option<string> {
    if message.Some? && message.value != "" then message else None
  }

  lemma TellsWhat(e: Engine, id: string, error: Option<string>)
    requires id in e.running
    ensures Tells(e.closing, e.running[id], error, Said(Message(e, id, error)))
    ensures e.closing || e.running[id].persistenceFailed ==> Said(Message(e, id, error)).Some?
  {
  }

  lemma TurnEnds(h: Harness, e: Engine, r: string, env: Env) returns (notice: Option<string>)
    requires Lawful(h) && Inv(h, e) && Settles(e, r, env) && !env.bindThrows
    ensures EndsAsItWent(h, e, r, env, Stopped(h, e, r, env), notice)
  {
    TurnRuns(h, e, r);
    assert TurnOk(e, r);
    var id, error := e.turns[r].sessionId, e.turns[r].error;
    var e' := Stopped(h, e, r, env);
    notice := Said(Message(e, id, error));
    TellsWhat(e, id, error);
    var status := if e.closing || e.running[id].persistenceFailed then Interrupted else Idle;
    RunOfEffective(h, e, id);
    hide Inv, Lawful, Stopped, SettledValue, Message, Core, SessionEnds, Tells, FlushThrows, Effective, SameRow, LoggedLast;
    SettlementSeesEveryEvent(h, e, r, env);
    EndsOfCore(h, e'.tables.sessions[id], Effective(e, id), status, Message(e, id, error), env.now, env.newId);
    SettlementIsLogged(h, e, r, env);
    RunOfRow(Effective(e, id), e'.tables.sessions[id]);
  }

  lemma RunOfRow(v: HostSession, w: HostSession)
    requires SameRow(v, w)
    ensures w.runId == v.runId
  {
  }

  lemma RunOfEffective(h: Harness, e: Engine, id: string)
    requires Inv(h, e) && id in e.tables.sessions
    ensures Effective(e, id).runId == e.tables.sessions[id].runId
  {
    SessionsOkAt(h, e, id);
  }

  lemma SaveIsLogged(e: Engine, v: HostSession, record: Record, now: Time)
    ensures LoggedLast(SavedAs(e, v, record, now), v.session.id, record, now)
  {
    hide Stamps;
  }

  lemma SettlementIsLogged(h: Harness, e: Engine, r: string, env: Env)
    requires Lawful(h) && Inv(h, e) && Settles(e, r, env) && !env.bindThrows
    ensures var id := e.turns[r].sessionId;
            id in e.running &&
              LoggedLast(Stopped(h, e, r, env), id, Settled(e.turns[r].error, e.running[id].cancelled), env.now)
  {
    hide Inv, Flushed, SettledValue, Message, SavedAs, Core, Quiet, Failed, LoggedLast;
    var id, error := e.turns[r].sessionId, e.turns[r].error;
    TurnRuns(h, e, r);
    FlushKeeps(h, e, id, env.now, env.flushFails);
    var flushed := Flushed(e, id, env.now, env.flushFails);
    var gone := flushed.(live := flushed.live - {id});
    TurnRuns(h, flushed, r);
    var status := if e.closing || e.running[id].persistenceFailed then Interrupted else Idle;
    var latest, message := gone.tables.sessions[id], Message(gone, id, error);
    SettledKeepsId(h, latest, status, message, env.now, env.newId);
    var record := Settled(error, gone.running[id].cancelled);
    var saved := SavedAs(gone, SettledValue(h, latest, status, message, env.now, env.newId), record, env.now);
    SaveIsLogged(gone, SettledValue(h, latest, status, message, env.now, env.newId), record, env.now);
    SameLog(saved, Stopped(h, e, r, env), id, record, env.now);
  }

  lemma SameLog(e: Engine, e': Engine, id: string, record: Record, now: Time)
    requires LoggedLast(e, id, record, now) && e'.tables == e.tables
    ensures LoggedLast(e', id, record, now)
  {
  }

  // ----------------------------------------------------- retries and restarts

  /** The retry of a turn that failed to be stored went through. */
  ghost predicate Retries(e: Engine, r: string, env: Env) {
    && r in e.turns && e.turns[r].phase == RetryStopping && !env.stopFails && !env.saveFails
    && !FlushThrows(e, e.turns[r].sessionId, env.flushFails)
  }

  /** A session cut off at `at`: whatever was being built is to be built again. */
  ghost predicate IsCutOff(h: Harness, v: HostSession, w: HostSession, text: string, at: Time, newId: string) {
    w.status == Interrupted && SameRow(v, w) && SessionEnds(h.stop(v.session, at), w.session, false, Some(text), newId)
  }

  /** In every run, a retry stores everything its turn streamed, as cut off when the session
      was last saved. */
  lemma RetriesCutOff(h: Harness, states: seq<Engine>, ops: seq<Op>, envs: seq<Env>, i: nat, r: string)
    requires Lawful(h) && Run(h, states, ops, envs) && Inv(h, states[0]) && i < |ops|
    requires ops[i] == RetryStopped(r) && Retries(states[i], r, envs[i])
    ensures var e, e', env := states[i], states[i + 1], envs[i];
            var id := e.turns[r].sessionId;
            && id in e.tables.sessions && id in e'.tables.sessions && id !in e'.running
            && IsCutOff(h, Effective(e, id), e'.tables.sessions[id],
                        "Session storage failed during this turn. Inspect its work before continuing.",
                        if id in e.live && e.live[id].events != [] then env.now else e.tables.sessions[id].updatedAt,
                        env.newId)
            && LoggedLast(e', id, InterruptedTurn(Some("persistence failure")), env.now)
  {
    InvHolds(h, states, ops, envs, i);
    var e, e', env := states[i], states[i + 1], envs[i];
    assert Step(h, e, ops[i], env, e') && Fair(e, ops[i], env);
    hide Inv, Lawful, Run, RetriedStop, SettledValue, Core, SessionEnds, Effective, SameRow;
    RetrySeesEveryEvent(h, e, r, env);
    RetryIsLogged(h, e, r, env);
    var id := e.turns[r].sessionId;
    EndsOfCore(h, e'.tables.sessions[id], Effective(e, id), Interrupted, Some(STORAGE_FAILED), LastSave(e, id, env.now),
               env.newId);
  }

  lemma RetryIsLogged(h: Harness, e: Engine, r: string, env: Env)
    requires Lawful(h) && Inv(h, e) && Retries(e, r, env) && !env.bindThrows
    ensures LoggedLast(RetriedStop(h, e, r, env), e.turns[r].sessionId, InterruptedTurn(Some("persistence failure")), env.now)
  {
    hide Inv, Flushed, SettledValue, SavedAs, Core, Quiet, Failed, LoggedLast;
    var id := e.turns[r].sessionId;
    TurnRuns(h, e, r);
    FlushKeeps(h, e, id, env.now, env.flushFails);
    var flushed := Flushed(e, id, env.now, env.flushFails);
    TurnRuns(h, flushed, r);
    var latest, record := flushed.tables.sessions[id], InterruptedTurn(Some("persistence failure"));
    SettledKeepsId(h, latest, Interrupted, Some(STORAGE_FAILED), latest.updatedAt, env.newId);
    var value := SettledValue(h, latest, Interrupted, Some(STORAGE_FAILED), latest.updatedAt, env.newId);
    SaveIsLogged(flushed, value, record, env.now);
    SameLog(SavedAs(flushed, value, record, env.now), RetriedStop(h, e, r, env), id, record, env.now);
  }

  /** And a restart cuts off every running session as it was last saved. */
  lemma RestartsCutOff(h: Harness, states: seq<Engine>, ops: seq<Op>, envs: seq<Env>, i: nat, id: string)
    requires Lawful(h) && Run(h, states, ops, envs) && Inv(h, states[0]) && i < |ops|
    requires ops[i] == Restart && id in states[i].tables.sessions
    ensures var v, e' := states[i].tables.sessions[id], states[i + 1];
            && id in e'.tables.sessions
            && if v.status == Running
               then IsCutOff(h, v, e'.tables.sessions[id],
                             "Host restarted. This turn was interrupted; inspect its work before continuing.",
                             v.updatedAt, envs[i].newId)
               else Core(e'.tables.sessions[id]) == Core(v)
  {
    InvHolds(h, states, ops, envs, i);
    assert Step(h, states[i], Restart, envs[i], states[i + 1]);
    hide Inv, Lawful, Run, IsCutOff, Core;
    RestartCutsOff(h, states[i], envs[i], states[i + 1], id);
  }

  lemma RestartCutsOff(h: Harness, e: Engine, env: Env, e': Engine, id: string)
    requires Lawful(h) && Inv(h, e) && Step(h, e, Restart, env, e') && id in e.tables.sessions
    ensures id in e'.tables.sessions
    ensures var v := e.tables.sessions[id];
            if v.status == Running
            then IsCutOff(h, v, e'.tables.sessions[id],
                          "Host restarted. This turn was interrupted; inspect its work before continuing.", v.updatedAt,
                          env.newId)
            else Core(e'.tables.sessions[id]) == Core(v)
  {
    hide Inv, Lawful, SettledValue, Core, SessionEnds, SameRow, Restarted;
    RestartedRow(h, e, env, e', id);
    var v := e.tables.sessions[id];
    if v.status == Running {
      EndsOfCore(h, e'.tables.sessions[id], v, Interrupted, Some(RESTARTED), v.updatedAt, env.newId);
    }
  }
}
