/** `host/engine.ts` against an engine that writes every event at once: over every run the
    two hold the same sessions, but for the batch a crash loses. */
module HostWriteThrough {
  import opened Wrappers
  import opened HostSessions
  import opened DeltaSync
  import opened HostStores
  import opened HostSteps
  import opened HostRuns
  import opened HostGuarantees
  import opened HostStreams
  import opened HostFailures

  // ---------------------------------------------------------- the simple form

  /** A session as its user sees it, written or not, or nothing where there is none. */
  function Seen(e: Engine, id: string): Option<HostSession> {
    if id in e.tables.sessions then Some(Core(Effective(e, id))) else None
  }

  /** A write that happens at once, unless there is nothing to write. */
  function Write(v: Option<HostSession>, next: Option<HostSession>): Option<HostSession> {
    if next.Some? then Some(Core(next.value)) else v
  }

  /** Writing for the session fails, be it a batch or the step's own save. */
  predicate WriteFails(e: Engine, id: string, env: Env) { FlushThrows(e, id, env.flushFails) || env.saveFails }

  /** What one step does to the one value `v` of session `id` in an engine without batches.
      Of the real engine it takes what is in memory only, such as who listens, which turns
      wait and which write fails; the last saves are needed for the time of an interruption
      alone, and where a process ends with a batch still waiting. */
  function Through(h: Harness, e: Engine, op: Op, env: Env, id: string, v: Option<HostSession>): Option<HostSession> {
    match op
    case Issue(c) => if e.closing || Replayed(e, c) then v else ThroughCommand(h, e, c, env, id, v)
    case Emit(x, runId, event) =>
      if x == id && v.Some? && id in e.live && StillRuns(v.value, runId)
      then Write(v, Some(v.value.(session := AppliedTo(h, v.value.session, event)))) else v
    case TurnStopped(r) =>
      if r in e.turns && e.turns[r].phase == Stopping && e.turns[r].sessionId == id
      then ThroughStop(h, e, id, e.turns[r].error, env, v) else v
    case RetryStopped(r) =>
      if r in e.turns && e.turns[r].phase == RetryStopping && e.turns[r].sessionId == id
      then ThroughRetry(h, e, id, env, v) else v
    case Update(x, patch) => ThroughEdit(e, x, Patching(patch), env, id, v)
    case NameTitle(x, expected, title) => ThroughEdit(e, x, Titling(expected, title, env), env, id, v)
    case NameBranch(x, branch) => ThroughEdit(e, x, Branching(branch, env), env, id, v)
    case Delete(x) => if x == id && v.Some? && v.value.status != Running && !env.saveFails then None else v
    case Restart => ThroughCrash(h, e, env, id, v)
    case _ => v
  }

  /** A command is judged on the value, and its result is the value. */
  function ThroughCommand(h: Harness, e: Engine, c: Command, env: Env, id: string, v: Option<HostSession>): Option<HostSession> {
    if c.Create? then
      if id == env.newId && !env.saveFails then Write(v, Created(h, e.projects, e.switching, c, env)) else v
    else if c.sessionId == id && v.Some? && !WriteFails(e, id, env)
    then Write(v, HostSteps.Commanded(h, e.switching, v.value, c, env)) else v
  }

  function ThroughStop(h: Harness, e: Engine, id: string, error: Option<string>, env: Env, v: Option<HostSession>): Option<HostSession> {
    if v.None? || env.stopFails || WriteFails(e, id, env) then v
    else
      var failed := id in e.running && e.running[id].persistenceFailed;
      var status := if e.closing || failed then Interrupted else Idle;
      Write(v, Some(SettledValue(h, v.value, status, Message(e, id, error), env.now, env.newId)))
  }

  function ThroughRetry(h: Harness, e: Engine, id: string, env: Env, v: Option<HostSession>): Option<HostSession> {
    if v.None? || env.stopFails || WriteFails(e, id, env) || id !in e.tables.sessions then v
    else Write(v, Some(SettledValue(h, v.value, Interrupted, Some(STORAGE_FAILED), LastSave(e, id, env.now), env.newId)))
  }

  function ThroughEdit(e: Engine, x: string, edit: HostSession -> Option<HostSession>, env: Env, id: string,
                       v: Option<HostSession>): Option<HostSession> {
    if x == id && v.Some? && !WriteFails(e, id, env) then Write(v, edit(v.value)) else v
  }

  /** A process that starts interrupts a running session as it was last saved. */
  function ThroughCrash(h: Harness, e: Engine, env: Env, id: string, v: Option<HostSession>): Option<HostSession> {
    if v.None? || v.value.status != Running || id !in e.tables.sessions then v
    else
      var last := if id in e.live && e.live[id].events != [] then e.tables.sessions[id] else v.value;
      Write(v, Some(SettledValue(h, last, Interrupted, Some(RESTARTED), e.tables.sessions[id].updatedAt, env.newId)))
  }

  function Patching(patch: Patch): HostSession -> Option<HostSession> {
    v => if ValidPatch(patch) then Some(Patched(v, patch)) else None
  }

  function Titling(expected: string, title: string, env: Env): HostSession -> Option<HostSession> {
    v => NewTitle(v, expected, title, env)
  }

  function Branching(branch: string, env: Env): HostSession -> Option<HostSession> {
    v => Some(NewBranch(v, branch, env))
  }

  // ------------------------------------------------------------- other sessions

  lemma AlikeIsSeen(e: Engine, e': Engine, id: string)
    ensures Alike(e, e', id) <==> Seen(e', id) == Seen(e, id)
  {
  }

  lemma CoreOfCore(v: HostSession)
    ensures Core(Core(v)) == Core(v)
  {
  }

  /** A command changes no session but its own. */
  lemma CommitElsewhere(e: Engine, c: Command, v: HostSession, env: Env, x: string)
    requires x != v.session.id
    ensures Alike(e, Committed(e, c, v, env), x)
  {
    var id, input, record := v.session.id, InputOf(c, v, env), HostSessions.Commanded(c);
    CommittedIs(e, c, v, env);
    ReceiptElsewhere(e, c, v, env, x);
    OwnInput(c, v, env);
    hide Written, Committed, WithReceipt, NewIds, InputOf, Effect, Refreshed, Alike;
    var first := WithReceipt(NewIds(e, env), c, v);
    var written := Written(first, input, record);
    WriteElsewhere(first, input, record, x);
    RefreshElsewhere(written, id, x);
    RefreshKeepsTables(written, id);
    EffectElsewhere(Refreshed(written, id), c, id, env, x);
    AlikeChain(e, first, written, x);
    AlikeChain(e, written, Refreshed(written, id), x);
    AlikeChain(e, Refreshed(written, id), Committed(e, c, v, env), x);
  }

  lemma ReceiptElsewhere(e: Engine, c: Command, v: HostSession, env: Env, x: string)
    ensures Alike(e, WithReceipt(NewIds(e, env), c, v), x)
  {
  }

  lemma EffectElsewhere(e: Engine, c: Command, id: string, env: Env, x: string)
    requires id in e.tables.sessions && x != id
    ensures Alike(e, Effect(e, c, id, env), x)
  {
  }

  lemma OwnInput(c: Command, v: HostSession, env: Env)
    ensures InputOf(c, v, env).session.id == v.session.id
  {
  }

  lemma SaveElsewhere(e: Engine, v: HostSession, record: Record, now: Time, x: string)
    ensures x != v.session.id ==> Alike(e, SavedAs(e, v, record, now), x)
  {
    WriteElsewhere(e, v.(revision := v.revision + 1, updatedAt := now), record, x);
    hide Written, Alike;
  }

  lemma MemoryElsewhere(e: Engine, e': Engine, id: string, x: string)
    requires x != id && e'.tables == e.tables && e'.live - {id} == e.live - {id}
    ensures Alike(e, e', x)
  {
    assert x in e.live <==> x in e.live - {id};
    assert x in e'.live <==> x in e'.live - {id};
  }

  lemma FreedIsAlike(e: Engine, id: string, bound: HostSession, r: string, env: Env, x: string)
    ensures Alike(e, Freed(e, id, bound, r, env), x)
  {
    FailedIsAlike(e, id, r);
  }

  lemma StopElsewhere(h: Harness, e: Engine, r: string, env: Env, x: string)
    requires Lawful(h) && Inv(h, e) && r in e.turns && x != e.turns[r].sessionId
    ensures Alike(e, Stopped(h, e, r, env), x)
  {
    hide Inv, Flushed, Alike, Failed, StoppedFlushed;
    var id := e.turns[r].sessionId;
    FailedChangesNothing(e, id, r, x);
    if !env.stopFails && !FlushThrows(e, id, env.flushFails) {
      FlushIsAlike(h, e, id, env.now, env.flushFails, x);
      FlushKeeps(h, e, id, env.now, env.flushFails);
      var flushed := Flushed(e, id, env.now, env.flushFails);
      var gone := flushed.(live := flushed.live - {id});
      MemoryElsewhere(flushed, gone, id, x);
      if id in flushed.tables.sessions { StoredFacts(h, flushed, id); }
      SettleElsewhere(h, gone, id, r, e.turns[r].error, env, x);
      AlikeChain(e, flushed, gone, x);
      AlikeChain(e, gone, StoppedFlushed(h, gone, id, r, e.turns[r].error, env), x);
    }
  }

  lemma FailedChangesNothing(e: Engine, id: string, r: string, x: string)
    ensures Alike(e, Failed(e, id, r), x)
  {
    FailedIsAlike(e, id, r);
    hide Core;
  }

  lemma SettleElsewhere(h: Harness, e: Engine, id: string, r: string, error: Option<string>, env: Env, x: string)
    requires Lawful(h) && x != id && (id in e.tables.sessions ==> e.tables.sessions[id].session.id == id)
    ensures Alike(e, StoppedFlushed(h, e, id, r, error, env), x)
  {
    hide Alike, Failed, Freed, SettledTurn;
    FailedChangesNothing(e, id, r, x);
    if id in e.tables.sessions {
      var latest := e.tables.sessions[id];
      var saved := if latest.runId == Some(r) then SettledTurn(h, e, latest, id, error, env) else e;
      AlikeItself(e, x);
      SettledElsewhere(h, e, latest, id, error, env, x);
      var next := saved.(running := saved.running - {id});
      SameValuesAlike(saved, next, x);
      AlikeChain(e, saved, next, x);
      FreedIsAlike(next, id, saved.tables.sessions[id], r, env, x);
      AlikeChain(e, next, Freed(next, id, saved.tables.sessions[id], r, env), x);
    }
  }

  lemma SettledElsewhere(h: Harness, e: Engine, latest: HostSession, id: string, error: Option<string>, env: Env, x: string)
    requires Lawful(h) && id in e.tables.sessions && latest.session.id == id && x != id
    ensures Alike(e, SettledTurn(h, e, latest, id, error, env), x)
  {
    var failed := id in e.running && e.running[id].persistenceFailed;
    var status := if e.closing || failed then Interrupted else Idle;
    var message := Message(e, id, error);
    hide SavedAs, SettledValue, Alike, Message;
    SettledKeepsId(h, latest, status, message, env.now, env.newId);
    SaveElsewhere(e, SettledValue(h, latest, status, message, env.now, env.newId),
                  Settled(error, id in e.running && e.running[id].cancelled), env.now, x);
  }

  lemma RetryElsewhere(h: Harness, e: Engine, r: string, env: Env, x: string)
    requires Lawful(h) && Inv(h, e) && r in e.turns && x != e.turns[r].sessionId
    ensures Alike(e, RetriedStop(h, e, r, env), x)
  {
    hide Inv, Flushed, Alike, Failed, RetriedFlushed;
    var id := e.turns[r].sessionId;
    FailedChangesNothing(e, id, r, x);
    if !env.stopFails && !FlushThrows(e, id, env.flushFails) {
      FlushIsAlike(h, e, id, env.now, env.flushFails, x);
      FlushKeeps(h, e, id, env.now, env.flushFails);
      var flushed := Flushed(e, id, env.now, env.flushFails);
      if id in flushed.tables.sessions { StoredFacts(h, flushed, id); }
      InterruptElsewhere(h, flushed, id, r, env, x);
      AlikeChain(e, flushed, RetriedFlushed(h, flushed, id, r, env), x);
    }
  }

  lemma InterruptElsewhere(h: Harness, e: Engine, id: string, r: string, env: Env, x: string)
    requires Lawful(h) && x != id && (id in e.tables.sessions ==> e.tables.sessions[id].session.id == id)
    ensures Alike(e, RetriedFlushed(h, e, id, r, env), x)
  {
    hide Alike, Failed, Freed, InterruptedRun;
    FailedChangesNothing(e, id, r, x);
    if id in e.tables.sessions {
      var latest := e.tables.sessions[id];
      var saved := if StillRuns(latest, r) then InterruptedRun(h, e, latest, env) else e;
      AlikeItself(e, x);
      InterruptedElsewhere(h, e, latest, env, x);
      var next := saved.(live := saved.live - {id}, running := saved.running - {id});
      MemoryElsewhere(saved, next, id, x);
      AlikeChain(e, saved, next, x);
      FreedIsAlike(next, id, latest, r, env, x);
      AlikeChain(e, next, Freed(next, id, latest, r, env), x);
    }
  }

  lemma InterruptedElsewhere(h: Harness, e: Engine, latest: HostSession, env: Env, x: string)
    requires Lawful(h) && x != latest.session.id
    ensures Alike(e, InterruptedRun(h, e, latest, env), x)
  {
    hide SavedAs, SettledValue, Alike;
    SettledKeepsId(h, latest, Interrupted, Some(STORAGE_FAILED), latest.updatedAt, env.newId);
    SaveElsewhere(e, SettledValue(h, latest, Interrupted, Some(STORAGE_FAILED), latest.updatedAt, env.newId),
                  InterruptedTurn(Some("persistence failure")), env.now, x);
  }

  // ------------------------------------------------------------------ commands

  lemma CommandedIsThrough(h: Harness, e: Engine, c: Command, env: Env, id: string)
    requires Lawful(h) && Inv(h, e) && !c.Create? && !e.closing && !Replayed(e, c)
    ensures Seen(Issued(h, e, c, env).0, id) == ThroughCommand(h, e, c, env, id, Seen(e, id))
  {
    hide Inv, Flushed, HostSteps.Commanded, Committed, Core, FlushThrows, Issued, Outcome, Effective, Alike;
    var e' := Issued(h, e, c, env).0;
    AlikeIsSeen(e, e', id);
    if id == c.sessionId {
      CommandsSeeEveryEvent(h, e, c, env);
      if id in e.tables.sessions {
        var v := Effective(e, id);
        CoreOfCore(v);
        CommandedOfCore(h, e, e, v, Core(v), c, env);
      }
    } else {
      CommandElsewhere(h, e, c, env, id);
    }
  }

  lemma CommandElsewhere(h: Harness, e: Engine, c: Command, env: Env, x: string)
    requires Lawful(h) && Inv(h, e) && !c.Create? && !e.closing && !Replayed(e, c) && x != c.sessionId
    ensures Alike(e, Issued(h, e, c, env).0, x)
  {
    hide Inv, Flushed, Committed, FlushThrows, Issued, Outcome, Alike;
    var id := c.sessionId;
    IssuedIs(h, e, c, env);
    AlikeItself(e, x);
    FlushIsAlike(h, e, id, env.now, env.flushFails, x);
    var flushed := Flushed(e, id, env.now, env.flushFails);
    if !FlushThrows(e, id, env.flushFails) {
      OutcomeOfCore(h, e, c, env);
      var value := Outcome(h, flushed, c, env);
      if value.Some? {
        CommitElsewhere(flushed, c, value.value, env, x);
        AlikeChain(e, flushed, Committed(flushed, c, value.value, env), x);
      }
    }
  }

  lemma CreateIsThrough(h: Harness, e: Engine, c: Command, env: Env, id: string)
    requires Lawful(h) && Inv(h, e) && c.Create? && !e.closing && !Replayed(e, c) && env.newId !in e.used
    ensures Seen(Issued(h, e, c, env).0, id) == ThroughCommand(h, e, c, env, id, Seen(e, id))
  {
    NewIsNew(h, e, env.newId);
    hide Inv, Committed, Core, Effective, Alike, Created;
    var value := Created(h, e.projects, e.switching, c, env);
    if value.Some? && !env.saveFails {
      CreatedId(h, e, c, env);
      assert Issued(h, e, c, env).0 == Committed(e, c, value.value, env);
      if id == env.newId {
        CommittedCore(h, e, c, value.value, env);
      } else {
        CommitElsewhere(e, c, value.value, env, id);
        AlikeIsSeen(e, Committed(e, c, value.value, env), id);
      }
    }
  }

  lemma CreatedId(h: Harness, e: Engine, c: Command, env: Env)
    requires c.Create? && Created(h, e.projects, e.switching, c, env).Some?
    ensures Created(h, e.projects, e.switching, c, env).value.session.id == env.newId
  {
  }

  lemma NewIsNew(h: Harness, e: Engine, id: string)
    requires Inv(h, e) && id !in e.used
    ensures id !in e.tables.sessions && id !in e.live && Quiet(e, id)
  {
    SessionsOkAt(h, e, id);
  }

  // -------------------------------------------------------- ends of turns, edits

  lemma StopIsThrough(h: Harness, e: Engine, r: string, env: Env, id: string)
    requires Lawful(h) && Inv(h, e) && r in e.turns && e.turns[r].phase == Stopping && !env.bindThrows
    requires Inv(h, Stopped(h, e, r, env))
    ensures Seen(Stopped(h, e, r, env), id)
            == if e.turns[r].sessionId == id then ThroughStop(h, e, id, e.turns[r].error, env, Seen(e, id)) else Seen(e, id)
  {
    hide Inv, Stopped, SettledValue, Message, Core, Alike, FlushThrows, Effective;
    var e' := Stopped(h, e, r, env);
    AlikeIsSeen(e, e', id);
    if e.turns[r].sessionId == id {
      SettlementSeesEveryEvent(h, e, r, env);
      if !env.stopFails && !WriteFails(e, id, env) {
        NotRunning(h, e', id);
        var v := Effective(e, id);
        var status := if e.closing || e.running[id].persistenceFailed then Interrupted else Idle;
        CoreOfCore(v);
        SettledOfCore(h, v, Core(v), status, Message(e, id, e.turns[r].error), env.now, env.newId);
      }
    } else {
      StopElsewhere(h, e, r, env, id);
    }
  }

  lemma NotRunning(h: Harness, e: Engine, id: string)
    requires Inv(h, e) && id !in e.running && id in e.tables.sessions
    ensures Effective(e, id) == e.tables.sessions[id]
  {
    SessionsOkAt(h, e, id);
  }

  lemma RetryIsThrough(h: Harness, e: Engine, r: string, env: Env, id: string)
    requires Lawful(h) && Inv(h, e) && r in e.turns && e.turns[r].phase == RetryStopping && !env.bindThrows
    requires Inv(h, RetriedStop(h, e, r, env))
    ensures Seen(RetriedStop(h, e, r, env), id)
            == if e.turns[r].sessionId == id then ThroughRetry(h, e, id, env, Seen(e, id)) else Seen(e, id)
  {
    hide Inv, RetriedStop, SettledValue, Core, Alike, FlushThrows, Effective, LastSave;
    var e' := RetriedStop(h, e, r, env);
    AlikeIsSeen(e, e', id);
    if e.turns[r].sessionId == id {
      RetrySeesEveryEvent(h, e, r, env);
      if !env.stopFails && !WriteFails(e, id, env) {
        NotRunning(h, e', id);
        var v := Effective(e, id);
        CoreOfCore(v);
        SettledOfCore(h, v, Core(v), Interrupted, Some(STORAGE_FAILED), LastSave(e, id, env.now), env.newId);
      }
    } else {
      RetryElsewhere(h, e, r, env, id);
    }
  }

  lemma EditIsThrough(h: Harness, e: Engine, x: string, edit: HostSession -> Option<HostSession>, record: Record, env: Env,
                      id: string)
    requires Lawful(h) && Inv(h, e) && OfCore(edit)
    ensures Seen(FlushedEdit(e, x, edit, record, env), id) == ThroughEdit(e, x, edit, env, id, Seen(e, id))
  {
    hide Inv, FlushedEdit, Core, Alike, FlushThrows, Effective;
    EditsSeeEveryEvent(h, e, x, edit, record, env, id);
    AlikeIsSeen(e, FlushedEdit(e, x, edit, record, env), id);
    if id in e.tables.sessions { CoreOfCore(Effective(e, id)); }
  }

  lemma PatchingOfCore(patch: Patch)
    ensures OfCore(Patching(patch))
  {
    hide Patched, ValidPatch, Core;
    forall v: HostSession, w: HostSession | Core(v) == Core(w)
      ensures Core(Patched(v, patch)) == Core(Patched(w, patch)) && Patched(v, patch).session.id == v.session.id
    {
      PatchedOfCore(v, w, patch);
    }
  }

  lemma TitlingOfCore(expected: string, title: string, env: Env)
    ensures OfCore(Titling(expected, title, env))
  {
    hide NewTitle, Core;
    forall v: HostSession, w: HostSession | Core(v) == Core(w)
      ensures NewTitle(v, expected, title, env).Some? <==> NewTitle(w, expected, title, env).Some?
      ensures NewTitle(v, expected, title, env).Some? ==>
                && Core(NewTitle(v, expected, title, env).value) == Core(NewTitle(w, expected, title, env).value)
                && NewTitle(v, expected, title, env).value.session.id == v.session.id
    {
      TitleOfCore(v, w, expected, title, env);
    }
  }

  lemma TitleOfCore(v: HostSession, w: HostSession, expected: string, title: string, env: Env)
    requires Core(v) == Core(w)
    ensures NewTitle(v, expected, title, env).Some? <==> NewTitle(w, expected, title, env).Some?
    ensures NewTitle(v, expected, title, env).Some? ==>
              && Core(NewTitle(v, expected, title, env).value) == Core(NewTitle(w, expected, title, env).value)
              && NewTitle(v, expected, title, env).value.session.id == v.session.id
  {
    SameParts(v, w);
  }

  lemma BranchingOfCore(branch: string, env: Env)
    ensures OfCore(Branching(branch, env))
  {
    hide NewBranch, Core;
    forall v: HostSession, w: HostSession | Core(v) == Core(w)
      ensures Core(NewBranch(v, branch, env)) == Core(NewBranch(w, branch, env))
      ensures NewBranch(v, branch, env).session.id == v.session.id
    {
      BranchOfCore(v, w, branch, env);
    }
  }

  lemma BranchOfCore(v: HostSession, w: HostSession, branch: string, env: Env)
    requires Core(v) == Core(w)
    ensures Core(NewBranch(v, branch, env)) == Core(NewBranch(w, branch, env))
    ensures NewBranch(v, branch, env).session.id == v.session.id
  {
    SameParts(v, w);
  }

  lemma EditsAreThrough(h: Harness, e: Engine, op: Op, env: Env, e': Engine, id: string)
    requires Lawful(h) && Inv(h, e) && Step(h, e, op, env, e') && (op.Update? || op.NameTitle? || op.NameBranch?)
    ensures Seen(e', id) == Through(h, e, op, env, id, Seen(e, id))
  {
    hide Inv, Lawful, OfCore, Seen, ThroughEdit, Flushed, FlushThrows, Patched, ValidPatch, NewTitle, NewBranch;
    match op
    case Update(x, patch) =>
      PatchingOfCore(patch);
      EditIsThrough(h, e, x, Patching(patch), Metadata(patch), env, id);
    case NameTitle(x, expected, title) =>
      TitlingOfCore(expected, title, env);
      EditIsThrough(h, e, x, Titling(expected, title, env), GeneratedTitle, env, id);
    case NameBranch(x, branch) =>
      BranchingOfCore(branch, env);
      EditIsThrough(h, e, x, Branching(branch, env), GeneratedBranch(branch), env, id);
  }

  // --------------------------------------------------- events, removal, restart

  lemma EventIsThrough(h: Harness, e: Engine, x: string, runId: string, event: HarnessEvent, env: Env, id: string)
    requires Lawful(h) && Inv(h, e)
    ensures Seen(Emitted(h, e, x, runId, event, env), id) == Through(h, e, Emit(x, runId, event), env, id, Seen(e, id))
  {
    hide Inv, Emitted, Alike;
    EventsAreAbsorbed(h, e, x, runId, event, env, id);
    AlikeIsSeen(e, Emitted(h, e, x, runId, event, env), id);
    SessionsOkLive(h, e, id);
    if id in e.tables.sessions { SameParts(Effective(e, id), Core(Effective(e, id))); }
  }

  lemma SessionsOkLive(h: Harness, e: Engine, id: string)
    requires Inv(h, e)
    ensures id in e.live ==> id in e.tables.sessions
    ensures id in e.tables.sessions ==> Effective(e, id).status == e.tables.sessions[id].status
    ensures id in e.tables.sessions && (id in e.live ==> e.live[id].events == []) ==>
              Effective(e, id) == e.tables.sessions[id]
  {
    SessionsOkAt(h, e, id);
  }

  lemma RemovalIsThrough(h: Harness, e: Engine, x: string, env: Env, id: string)
    requires Inv(h, e)
    ensures Seen(Removed(e, x, env), id) == Through(h, e, Delete(x), env, id, Seen(e, id))
  {
    SessionsOkLive(h, e, id);
    hide Inv, Core;
    if id in e.tables.sessions { StatusOfCore(Effective(e, id)); }
    hide Effective;
    RemovedElsewhere(e, x, env, id);
  }

  lemma RemovedElsewhere(e: Engine, x: string, env: Env, id: string)
    ensures var e' := Removed(e, x, env);
            if x == id && CanDelete(e, x) && !env.saveFails then id !in e'.tables.sessions else Seen(e', id) == Seen(e, id)
  {
    hide Core;
  }

  lemma CrashIsThrough(h: Harness, e: Engine, env: Env, e': Engine, id: string)
    requires Lawful(h) && Inv(h, e) && Restarted(h, e, env, e') && Inv(h, e')
    ensures Seen(e', id) == ThroughCrash(h, e, env, id, Seen(e, id))
  {
    hide Inv, Restarted, SettledValue, Core, Effective;
    RestartIsEmpty(h, e, env, e');
    SessionsOkLive(h, e, id);
    RestartedKeys(h, e, env, e', id);
    if id in e.tables.sessions {
      RestartedRow(h, e, env, e', id);
      SessionsOkLive(h, e', id);
      var v, w := e.tables.sessions[id], Effective(e, id);
      CoreOfCore(w);
      StatusOfCore(w);
      if v.status == Running {
        SettledOfCore(h, w, Core(w), Interrupted, Some(RESTARTED), v.updatedAt, env.newId);
      } else {
        NoBatchAtRest(h, e, id);
      }
    }
  }

  lemma NoBatchAtRest(h: Harness, e: Engine, id: string)
    requires Inv(h, e) && id in e.tables.sessions && e.tables.sessions[id].status != Running
    ensures Effective(e, id) == e.tables.sessions[id]
  {
    SessionsOkAt(h, e, id);
  }

  lemma StatusOfCore(v: HostSession)
    ensures Core(v).status == v.status
  {
  }

  lemma RestartedKeys(h: Harness, e: Engine, env: Env, e': Engine, id: string)
    requires Lawful(h) && Inv(h, e) && Restarted(h, e, env, e')
    ensures id in e'.tables.sessions <==> id in e.tables.sessions
  {
    var ids: seq<string> :| (forall x :: x in ids <==> x in e.tables.sessions)
      && (forall i, j :: 0 <= i < j < |ids| ==> ids[i] != ids[j]) && e' == RecoveredAll(h, Booted(e), ids, env);
    forall x | x in e.tables.sessions ensures e.tables.sessions[x].session.id == x { StoredFacts(h, e, x); }
    hide Inv, RecoveredAll;
    RecoveredAt(h, Booted(e), ids, env, id);
  }

  // ------------------------------------------------------------------- all runs

  /** Every step does to every session what it would do without batches. */
  lemma ThroughStep(h: Harness, e: Engine, op: Op, env: Env, e': Engine, id: string)
    requires Lawful(h) && Inv(h, e) && Inv(h, e') && Step(h, e, op, env, e') && Fair(e, op, env)
    ensures Seen(e', id) == Through(h, e, op, env, id, Seen(e, id))
  {
    hide Inv, Lawful, Seen, ThroughCommand, ThroughStop, ThroughRetry, ThroughEdit, ThroughCrash, Restarted;
    hide Issued, Emitted, Stopped, RetriedStop, Removed, Flushed, TimerFlushed, Started, SwitchBegun, Closed, Core;
    match op
    case Issue(c) =>
      if !e.closing && !Replayed(e, c) {
        if c.Create? { CreateIsThrough(h, e, c, env, id); } else { CommandedIsThrough(h, e, c, env, id); }
      } else {
        RefusedAtOnce(h, e, c, env);
      }
    case Emit(x, runId, event) => EventIsThrough(h, e, x, runId, event, env, id);
    case TurnStopped(r) =>
      if r in e.turns && e.turns[r].phase == Stopping { StopIsThrough(h, e, r, env, id); }
    case RetryStopped(r) =>
      if r in e.turns && e.turns[r].phase == RetryStopping { RetryIsThrough(h, e, r, env, id); }
    case Update(_, _) => EditsAreThrough(h, e, op, env, e', id);
    case NameTitle(_, _, _) => EditsAreThrough(h, e, op, env, e', id);
    case NameBranch(_, _) => EditsAreThrough(h, e, op, env, e', id);
    case Delete(x) => RemovalIsThrough(h, e, x, env, id);
    case Restart => CrashIsThrough(h, e, env, e', id);
    case _ =>
      HousekeepingChangesNothing(h, e, op, env, e', id);
      AlikeIsSeen(e, e', id);
  }

  lemma RefusedAtOnce(h: Harness, e: Engine, c: Command, env: Env)
    requires e.closing || Replayed(e, c)
    ensures Issued(h, e, c, env).0 == e
  {
  }

  /** The value an engine without batches holds of session `id` after step `j`, if it held
      `v` before step `i`. */
  function WrittenThrough(h: Harness, states: seq<Engine>, ops: seq<Op>, envs: seq<Env>, i: nat, j: nat, id: string,
                          v: Option<HostSession>): Option<HostSession>
    requires i <= j <= |ops| && |envs| == |ops| && |states| == |ops| + 1
    decreases j - i
  {
    if i == j then v
    else Through(h, states[j - 1], ops[j - 1], envs[j - 1], id,
                 WrittenThrough(h, states, ops, envs, i, j - 1, id, v))
  }

  /** In every run, with events, timers, commands, edits, ends of turns, retries, deletions,
      restarts and failing writes in any order, every session is what an engine without
      batches would hold. */
  lemma {:induction false} BatchedRefinesWriteThrough(h: Harness, states: seq<Engine>, ops: seq<Op>, envs: seq<Env>,
                                                      i: nat, j: nat, id: string)
    requires Lawful(h) && Run(h, states, ops, envs) && Inv(h, states[0]) && i <= j <= |ops|
    ensures Seen(states[j], id) == WrittenThrough(h, states, ops, envs, i, j, id, Seen(states[i], id))
    decreases j - i
  {
    hide Inv, Lawful, Seen, Through, Step, Fair;
    if i < j {
      BatchedRefinesWriteThrough(h, states, ops, envs, i, j - 1, id);
      InvHolds(h, states, ops, envs, j - 1);
      InvHolds(h, states, ops, envs, j);
      ThroughStep(h, states[j - 1], ops[j - 1], envs[j - 1], states[j], id);
    }
  }

  // ------------------------------------------------------------------ streams

  /** The step is an operation on the session other than an event of it. */
  predicate Touches(e: Engine, op: Op, id: string) {
    match op
    case Issue(c) => !c.Create? && c.sessionId == id
    case TurnStopped(r) => r in e.turns && e.turns[r].sessionId == id
    case RetryStopped(r) => r in e.turns && e.turns[r].sessionId == id
    case Update(x, _) => x == id
    case NameTitle(x, _, _) => x == id
    case NameBranch(x, _) => x == id
    case Delete(x) => x == id
    case Restart => true
    case _ => false
  }

  /** The events of a stretch of a run that a session accepted, in order. */
  function Accepted(states: seq<Engine>, ops: seq<Op>, i: nat, j: nat, id: string): seq<HarnessEvent>
    requires i <= j <= |ops| < |states|
    decreases j - i
  {
    if i == j then []
    else Accepted(states, ops, i, j - 1, id) + AcceptedNow(states[j - 1], ops[j - 1], id)
  }

  function AcceptedNow(e: Engine, op: Op, id: string): seq<HarnessEvent> {
    if op.Emit? && op.sessionId == id && Accepts(e, id, op.runId) then [op.event] else []
  }

  lemma UntouchedIsKept(h: Harness, e: Engine, op: Op, env: Env, e': Engine, id: string)
    requires Lawful(h) && Inv(h, e) && Inv(h, e') && Step(h, e, op, env, e') && Fair(e, op, env)
    requires id in e.tables.sessions && !op.Emit? && !Touches(e, op, id)
    ensures Alike(e, e', id)
  {
    ThroughStep(h, e, op, env, e', id);
    SessionsOkAt(h, e, id);
    AlikeIsSeen(e, e', id);
    hide Inv, Step, Seen, ThroughStop, ThroughRetry, HostSteps.Commanded;
  }

  lemma StreamStep(h: Harness, e: Engine, op: Op, env: Env, e': Engine, id: string, v: HostSession, earlier: seq<HarnessEvent>)
    requires Lawful(h) && Inv(h, e) && Inv(h, e') && Step(h, e, op, env, e') && Fair(e, op, env)
    requires op.Emit? || !Touches(e, op, id)
    requires id in e.tables.sessions && Core(Effective(e, id)) == Core(v.(session := Fold(h, v.session, earlier)))
    ensures id in e'.tables.sessions
    ensures Core(Effective(e', id)) == Core(v.(session := Fold(h, v.session, earlier + AcceptedNow(e, op, id))))
  {
    assert earlier + [] == earlier;
    if op.Emit? {
      assert e' == Emitted(h, e, op.sessionId, op.runId, op.event, env);
      hide Inv, Lawful, Core, Effective, Fold, Emitted, Step, Accepts;
      EventsAreAbsorbed(h, e, op.sessionId, op.runId, op.event, env, id);
      AppliedOfCore(h, Effective(e, id), v, earlier, op.event);
    } else {
      hide Inv, Lawful, Core, Effective, Fold, Step, Fair, Touches;
      UntouchedIsKept(h, e, op, env, e', id);
    }
  }

  lemma FoldMore(h: Harness, s: Session, events: seq<HarnessEvent>, event: HarnessEvent)
    ensures Fold(h, s, events + [event]) == AppliedTo(h, Fold(h, s, events), event)
  {
    assert (events + [event])[..|events|] == events;
  }

  /** Between two operations on it, whatever happens to other sessions and whichever writes
      fail, a session is what it was with exactly the accepted events applied, each once,
      in the order they came. */
  lemma {:induction false} StreamIsFolded(h: Harness, states: seq<Engine>, ops: seq<Op>, envs: seq<Env>, i: nat, j: nat, id: string)
    requires Lawful(h) && Run(h, states, ops, envs) && Inv(h, states[0]) && i <= j < |states|
    requires forall k :: i <= k < j ==> ops[k].Emit? || !Touches(states[k], ops[k], id)
    requires id in states[i].tables.sessions
    ensures id in states[j].tables.sessions
    ensures var v := Effective(states[i], id);
            Core(Effective(states[j], id)) == Core(v.(session := Fold(h, v.session, Accepted(states, ops, i, j, id))))
    decreases j - i
  {
    hide Inv, Lawful, Core, Effective, Fold, Step, Fair, AcceptedNow, Touches;
    if i == j {
      FoldNothing(h, Effective(states[i], id));
    } else {
      StreamIsFolded(h, states, ops, envs, i, j - 1, id);
      InvHolds(h, states, ops, envs, j - 1);
      InvHolds(h, states, ops, envs, j);
      StreamStep(h, states[j - 1], ops[j - 1], envs[j - 1], states[j], id, Effective(states[i], id),
                 Accepted(states, ops, i, j - 1, id));
    }
  }

  lemma FoldNothing(h: Harness, v: HostSession)
    ensures Fold(h, v.session, []) == v.session && v.(session := v.session) == v
  {
  }

  lemma AppliedOfCore(h: Harness, now: HostSession, v: HostSession, events: seq<HarnessEvent>, event: HarnessEvent)
    requires Core(now) == Core(v.(session := Fold(h, v.session, events)))
    ensures Core(now.(session := AppliedTo(h, now.session, event)))
            == Core(v.(session := Fold(h, v.session, events + [event])))
  {
    SameParts(now, v.(session := Fold(h, v.session, events)));
    FoldMore(h, v.session, events, event);
    hide Fold, AppliedTo;
  }
}
