/** Block ids stay distinct in `host/engine.ts` as long as clients choose new ids for new
    commands, and then every client follows every session exactly. */
module HostClients {
  import opened Wrappers
  import opened HostSessions
  import opened DeltaSync
  import opened HostStores
  import opened HostSteps
  import opened HostRuns
  import opened HostGuarantees
  import opened HostStreams
  import opened HostFailures

  /** What is assumed of the transcript reducer: it invents only new ids, and the end of a
      stream none. */
  ghost predicate KeepsNames(h: Harness) {
    && (forall s: Session, event: HarnessEvent :: h.apply(s, event).Some? && DistinctIds(s.blocks) ==> DistinctIds(h.apply(s, event).value.blocks))
    && (forall s: Session, at: Time :: DistinctIds(s.blocks) ==> DistinctIds(h.stop(s, at).blocks))
    && (forall s: Session, at: Time :: IdSet(h.stop(s, at).blocks) <= IdSet(s.blocks))
  }

  ghost predicate NamesOk(e: Engine) {
    forall id :: id in e.tables.sessions ==> DistinctIds(e.tables.sessions[id].session.blocks)
  }

  /** Commands that bring in a block, named after them. */
  predicate BringsABlock(c: Command) { c.Send? || c.Compact? || c.Draft? }

  /** The ids a step brings in are on no block of the session it touches. A command that is
      answered from its receipt brings in none: clients repeat commands as they like. */
  ghost predicate NewNames(e: Engine, op: Op, env: Env) {
    && (forall id :: id in e.tables.sessions ==>
          env.newId !in IdSet(Effective(e, id).session.blocks) && env.newId !in IdSet(e.tables.sessions[id].session.blocks))
    && (op.Issue? && BringsABlock(op.command) && !e.closing && !Replayed(e, op.command)
        && op.command.sessionId in e.tables.sessions ==>
          op.command.commandId !in IdSet(Effective(e, op.command.sessionId).session.blocks))
  }

  // ------------------------------------------------------------------ blocks

  lemma NewName(blocks: seq<Block>, b: Block)
    requires DistinctIds(blocks) && b.id !in IdSet(blocks)
    ensures DistinctIds(blocks + [b])
  {
    forall i | 0 <= i < |blocks| ensures blocks[i].id != b.id { assert blocks[i] in blocks; }
  }

  lemma {:induction false} FilteredNames(blocks: seq<Block>, id: string)
    requires DistinctIds(blocks)
    ensures DistinctIds(WithoutDrafts(blocks)) && DistinctIds(WithoutId(blocks, id))
    ensures IdSet(WithoutDrafts(blocks)) <= IdSet(blocks)
    decreases |blocks|
  {
    if blocks != [] {
      FilteredNames(blocks[1..], id);
      HeadIsNew(blocks, WithoutDrafts(blocks[1..]));
      HeadIsNew(blocks, WithoutId(blocks[1..], id));
    }
  }

  lemma HeadIsNew(blocks: seq<Block>, rest: seq<Block>)
    requires blocks != [] && DistinctIds(blocks) && DistinctIds(rest) && forall b :: b in rest ==> b in blocks[1..]
    ensures DistinctIds([blocks[0]] + rest)
  {
    forall i | 0 <= i < |rest| ensures rest[i].id != blocks[0].id {
      assert rest[i] in blocks[1..];
      var j :| 1 <= j < |blocks| && blocks[j] == rest[i];
    }
  }

  lemma {:induction false} FoldNames(h: Harness, s: Session, events: seq<HarnessEvent>)
    requires KeepsNames(h) && DistinctIds(s.blocks)
    ensures DistinctIds(Fold(h, s, events).blocks)
    decreases |events|
  {
    if events != [] { FoldNames(h, s, events[..|events| - 1]); }
  }

  lemma EffectiveNames(h: Harness, e: Engine, id: string)
    requires Inv(h, e) && KeepsNames(h) && NamesOk(e) && id in e.tables.sessions
    ensures DistinctIds(Effective(e, id).session.blocks)
  {
    SessionsOkAt(h, e, id);
    if id in e.live { FoldNames(h, e.tables.sessions[id].session, e.live[id].events); }
  }

  lemma SettledNames(h: Harness, v: HostSession, status: Status, message: Option<string>, at: Time, newId: string)
    requires KeepsNames(h) && DistinctIds(v.session.blocks) && newId !in IdSet(v.session.blocks)
    ensures DistinctIds(SettledValue(h, v, status, message, at, newId).session.blocks)
  {
    var stopped := h.stop(v.session, at).blocks;
    var plan := if status == Idle && !Says(message) then Built else Ready;
    var blocks := SettledBlocks(stopped, plan);
    assert IdSet(stopped) <= IdSet(v.session.blocks);
    SameNames(stopped, plan);
    assert blocks + [] == blocks;
    if Says(message) { NewName(blocks, SystemBlock(newId, message.value)); }
  }

  lemma SameNames(blocks: seq<Block>, plan: PlanStatus)
    ensures DistinctIds(blocks) ==> DistinctIds(SettledBlocks(blocks, plan))
    ensures IdSet(SettledBlocks(blocks, plan)) <= IdSet(blocks)
  {
    var settled := SettledBlocks(blocks, plan);
    forall id | id in IdSet(settled) ensures id in IdSet(blocks) {
      var i :| 0 <= i < |settled| && settled[i].id == id;
      assert blocks[i] in blocks && blocks[i].id == id;
    }
  }

  lemma PromptedNames(h: Harness, v: HostSession, c: Command, files: seq<string>, blocks: seq<Block>, env: Env)
    requires (c.Send? || c.Compact?) && DistinctIds(blocks) && c.commandId !in IdSet(blocks)
    ensures DistinctIds(Prompted(h, v, c, files, blocks, env).session.blocks)
  {
    FilteredNames(blocks, "");
    var all := Prompted(h, v, c, files, blocks, env).session.blocks;
    NewName(WithoutDrafts(blocks), all[|all| - 1]);
    hide WithoutDrafts;
  }

  lemma MarkedNames(blocks: seq<Block>, i: nat, plan: Option<Plan>)
    requires i < |blocks| && DistinctIds(blocks)
    ensures var marked := blocks[i := blocks[i].(plan := plan)];
            DistinctIds(marked) && IdSet(marked) == IdSet(blocks)
  {
    var marked := blocks[i := blocks[i].(plan := plan)];
    assert forall j :: 0 <= j < |blocks| ==> marked[j].id == blocks[j].id;
    forall id ensures id in IdSet(marked) <==> id in IdSet(blocks) {
      if id in IdSet(marked) {
        var j :| 0 <= j < |marked| && marked[j].id == id;
        assert blocks[j] in blocks;
      }
      if id in IdSet(blocks) {
        var j :| 0 <= j < |blocks| && blocks[j].id == id;
        assert marked[j] in marked;
      }
    }
  }

  lemma SentNames(h: Harness, v: HostSession, c: Command, env: Env)
    requires c.Send? && Sent(h, v, c, env).Some? && DistinctIds(v.session.blocks) && c.commandId !in IdSet(v.session.blocks)
    ensures DistinctIds(Sent(h, v, c, env).value.session.blocks)
  {
    var blocks := v.session.blocks;
    var draft := if c.draftBlockId.Some? then FindDraft(blocks, c.draftBlockId.value) else None;
    var plan := if c.planBlockId.Some? then FindPlan(blocks, c.planBlockId.value) else |blocks|;
    var files := if draft.Some? && draft.value.attachments != [] then Some(draft.value.attachments)
                 else h.attachments(c.attachments);
    var marked := if plan == |blocks| then blocks
                  else blocks[plan := blocks[plan].(plan := Some(Plan(Building, Some(blocks[plan].text))))];
    if plan < |blocks| { MarkedNames(blocks, plan, Some(Plan(Building, Some(blocks[plan].text)))); }
    PromptedNames(h, v, c, files.value, marked, env);
    hide Prompted, FindDraft, FindPlan, DistinctIds;
  }

  lemma CommandedNames(h: Harness, switching: set<string>, v: HostSession, c: Command, env: Env)
    requires KeepsNames(h) && !c.Create? && HostSteps.Commanded(h, switching, v, c, env).Some?
    requires DistinctIds(v.session.blocks) && (BringsABlock(c) ==> c.commandId !in IdSet(v.session.blocks))
    ensures DistinctIds(HostSteps.Commanded(h, switching, v, c, env).value.session.blocks)
  {
    hide WithoutId, Prompted, Sent, DistinctIds;
    match c
    case Send(_, _, _, _, _, _, _) => SentNames(h, v, c, env);
    case Compact(_, _) => PromptedNames(h, v, c, [], v.session.blocks, env);
    case Draft(_, _, _, _) => DraftedNames(h, v, c);
    case RemoveDraft(_, _, id) => FilteredNames(v.session.blocks, id);
    case Approve(_, _, _, request, decision) => AppliedNames(h, v.session, ApprovalResolved(request, decision));
    case _ =>
  }

  lemma DraftedNames(h: Harness, v: HostSession, c: Command)
    requires c.Draft? && Drafted(h, v, c).Some? && DistinctIds(v.session.blocks) && c.commandId !in IdSet(v.session.blocks)
    ensures DistinctIds(Drafted(h, v, c).value.session.blocks)
  {
    var all := Drafted(h, v, c).value.session.blocks;
    NewName(v.session.blocks, all[|all| - 1]);
  }

  lemma AppliedNames(h: Harness, s: Session, event: HarnessEvent)
    requires KeepsNames(h) && DistinctIds(s.blocks)
    ensures DistinctIds(AppliedTo(h, s, event).blocks)
  {
  }

  // -------------------------------------------------------------------- rows

  lemma OneRow(e: Engine, e': Engine, id: string)
    requires NamesOk(e) && (forall x :: x != id && x in e'.tables.sessions ==>
                              x in e.tables.sessions && e'.tables.sessions[x] == e.tables.sessions[x])
    requires id in e'.tables.sessions ==> DistinctIds(e'.tables.sessions[id].session.blocks)
    ensures NamesOk(e')
  {
  }

  lemma ElsewhereRows(e: Engine, e': Engine, id: string)
    requires SameElsewhere(e, e', id)
    ensures forall x :: x != id && x in e'.tables.sessions ==>
              x in e.tables.sessions && e'.tables.sessions[x] == e.tables.sessions[x]
  {
    hide LogOf, PastOf;
    forall x | x != id && x in e'.tables.sessions
      ensures x in e.tables.sessions && e'.tables.sessions[x] == e.tables.sessions[x]
    {
      assert SameSession(e, e', x);
    }
  }

  lemma WrittenNames(e: Engine, input: HostSession, record: Record)
    requires NamesOk(e) && DistinctIds(input.session.blocks)
    ensures NamesOk(Written(e, input, record))
  {
    var e' := Written(e, input, record);
    WrittenFrame(e, input, record);
    ElsewhereRows(e, e', input.session.id);
    WrittenCore(e, input, record);
    hide Written;
    SameParts(e'.tables.sessions[input.session.id], input);
    OneRow(e, e', input.session.id);
  }

  lemma FlushNames(h: Harness, e: Engine, id: string, now: Time, fails: bool)
    requires Lawful(h) && KeepsNames(h) && Inv(h, e) && NamesOk(e)
    ensures NamesOk(Flushed(e, id, now, fails)) && NamesOk(TimerFlushed(e, id, now, fails))
  {
    hide Inv, NamesOk, DistinctIds, KeepsNames;
    var e' := Flushed(e, id, now, fails);
    if FlushThrows(e, id, fails) {
      assert e' == e;
    } else {
      FlushKeeps(h, e, id, now, fails);
      ElsewhereRows(e, e', id);
      hide Flushed, Core;
      if id in e.tables.sessions {
        EffectiveNames(h, e, id);
        SameParts(e'.tables.sessions[id], Effective(e, id));
      }
      OneRow(e, e', id);
    }
    SameTables(e', TimerFlushed(e, id, now, fails));
  }

  lemma SameTables(e: Engine, e': Engine)
    requires NamesOk(e) && e'.tables.sessions == e.tables.sessions
    ensures NamesOk(e')
  {
  }

  lemma CommittedNames(e: Engine, c: Command, v: HostSession, env: Env)
    requires NamesOk(e) && DistinctIds(v.session.blocks)
    ensures NamesOk(Committed(e, c, v, env))
  {
    CommittedIs(e, c, v, env);
    var id, first := v.session.id, WithReceipt(NewIds(e, env), c, v);
    var input, record := InputOf(c, v, env), HostSessions.Commanded(c);
    SameTables(e, first);
    WrittenNames(first, input, record);
    var written := Written(first, input, record);
    RefreshKeepsTables(written, id);
    hide Written, NamesOk;
    SameTables(written, Effect(Refreshed(written, id), c, id, env));
  }

  lemma IssuedNames(h: Harness, e: Engine, c: Command, env: Env)
    requires Lawful(h) && KeepsNames(h) && Inv(h, e) && NamesOk(e) && NewNames(e, Issue(c), env)
    ensures NamesOk(Issued(h, e, c, env).0)
  {
    hide Inv, Flushed, NamesOk, IssuedFlushed, KeepsNames, FlushThrows, Core;
    if !e.closing && !Replayed(e, c) {
      if c.Create? {
        CreatedNames(h, e, c, env);
      } else if !FlushThrows(e, c.sessionId, env.flushFails) {
        FlushKeeps(h, e, c.sessionId, env.now, env.flushFails);
        FlushNames(h, e, c.sessionId, env.now, env.flushFails);
        var flushed := Flushed(e, c.sessionId, env.now, env.flushFails);
        if c.sessionId in flushed.tables.sessions { SameParts(flushed.tables.sessions[c.sessionId], Effective(e, c.sessionId)); }
        JudgedNames(h, flushed, c, env);
      }
    }
  }

  lemma CreatedNames(h: Harness, e: Engine, c: Command, env: Env)
    requires NamesOk(e) && c.Create?
    ensures NamesOk(IssuedFlushed(h, e, c, env).0)
  {
    var value := Created(h, e.projects, e.switching, c, env);
    if value.Some? { assert DistinctIds(value.value.session.blocks); CommittedNames(e, c, value.value, env); }
    hide Created, Committed, NamesOk;
  }

  lemma JudgedNames(h: Harness, e: Engine, c: Command, env: Env)
    requires KeepsNames(h) && NamesOk(e) && !c.Create?
    requires c.sessionId in e.tables.sessions && BringsABlock(c) ==>
               c.commandId !in IdSet(e.tables.sessions[c.sessionId].session.blocks)
    ensures NamesOk(IssuedFlushed(h, e, c, env).0)
  {
    hide HostSteps.Commanded, Committed, KeepsNames;
    if c.sessionId in e.tables.sessions {
      var value := HostSteps.Commanded(h, e.switching, e.tables.sessions[c.sessionId], c, env);
      if value.Some? {
        CommandedNames(h, e.switching, e.tables.sessions[c.sessionId], c, env);
        CommittedNames(e, c, value.value, env);
      }
    }
  }

  lemma EditedNames(e: Engine, id: string, edit: HostSession -> Option<HostSession>, record: Record, env: Env)
    requires NamesOk(e)
    requires forall v :: edit(v).Some? ==> edit(v).value.session.blocks == v.session.blocks
    ensures NamesOk(Edited(e, id, edit, record, env))
  {
    if id in e.tables.sessions && edit(e.tables.sessions[id]).Some? {
      var input := edit(e.tables.sessions[id]).value;
      WrittenNames(e, input, record);
      RefreshKeepsTables(Written(e, input, record), id);
      hide Written, NamesOk;
      SameTables(Written(e, input, record), Refreshed(Written(e, input, record), id));
    }
  }

  lemma EditsKeepNames(h: Harness, e: Engine, op: Op, env: Env, e': Engine)
    requires Lawful(h) && KeepsNames(h) && Inv(h, e) && NamesOk(e) && Step(h, e, op, env, e')
    requires op.Update? || op.NameTitle? || op.NameBranch?
    ensures NamesOk(e')
  {
    hide Inv, Flushed, Edited, NamesOk, FlushThrows, KeepsNames;
    var id := op.sessionId;
    FlushNames(h, e, id, env.now, env.flushFails);
    var flushed := Flushed(e, id, env.now, env.flushFails);
    match op
    case Update(_, patch) =>
      EditedNames(flushed, id, v => if ValidPatch(patch) then Some(Patched(v, patch)) else None, Metadata(patch), env);
    case NameTitle(_, expected, title) =>
      EditedNames(flushed, id, v => NewTitle(v, expected, title, env), GeneratedTitle, env);
    case NameBranch(_, branch) =>
      EditedNames(flushed, id, v => Some(NewBranch(v, branch, env)), GeneratedBranch(branch), env);
  }

  lemma FailedNames(e: Engine, id: string, r: string)
    requires NamesOk(e)
    ensures NamesOk(Failed(e, id, r))
  {
    SameTables(e, Failed(e, id, r));
  }

  lemma FreedNames(e: Engine, id: string, bound: HostSession, r: string, env: Env)
    requires NamesOk(e)
    ensures NamesOk(Freed(e, id, bound, r, env))
  {
    FailedNames(e, id, r);
    SameTables(e, Done(e, r));
    hide NamesOk, Failed, BindThrows;
  }

  lemma RowNames(e: Engine, id: string)
    requires NamesOk(e) && id in e.tables.sessions
    ensures DistinctIds(e.tables.sessions[id].session.blocks)
  {
  }

  lemma StopNames(h: Harness, e: Engine, id: string, r: string, error: Option<string>, env: Env)
    requires KeepsNames(h) && NamesOk(e)
    requires id in e.tables.sessions ==> env.newId !in IdSet(e.tables.sessions[id].session.blocks)
    ensures NamesOk(StoppedFlushed(h, e, id, r, error, env))
  {
    hide NamesOk, Failed, Freed, SettledTurn, KeepsNames, DistinctIds, IdSet;
    FailedNames(e, id, r);
    if id in e.tables.sessions && !(e.tables.sessions[id].runId == Some(r) && env.saveFails) {
      var latest := e.tables.sessions[id];
      RowNames(e, id);
      SettledTurnNames(h, e, latest, id, error, env);
      var saved := if latest.runId == Some(r) then SettledTurn(h, e, latest, id, error, env) else e;
      SameTables(saved, saved.(running := saved.running - {id}));
      FreedNames(saved.(running := saved.running - {id}), id, saved.tables.sessions[id], r, env);
    }
  }

  lemma RetryNames(h: Harness, e: Engine, id: string, r: string, env: Env)
    requires KeepsNames(h) && NamesOk(e)
    requires id in e.tables.sessions ==> env.newId !in IdSet(e.tables.sessions[id].session.blocks)
    ensures NamesOk(RetriedFlushed(h, e, id, r, env))
  {
    hide NamesOk, Failed, Freed, InterruptedRun, KeepsNames, DistinctIds, IdSet;
    FailedNames(e, id, r);
    if id in e.tables.sessions && !(StillRuns(e.tables.sessions[id], r) && env.saveFails) {
      var latest := e.tables.sessions[id];
      RowNames(e, id);
      InterruptedNames(h, e, latest, env);
      var again := if StillRuns(latest, r) then InterruptedRun(h, e, latest, env) else e;
      var gone := again.(live := again.live - {id}, running := again.running - {id});
      SameTables(again, gone);
      FreedNames(gone, id, latest, r, env);
    }
  }

  lemma SavedNames(e: Engine, v: HostSession, record: Record, now: Time)
    requires NamesOk(e) && DistinctIds(v.session.blocks)
    ensures NamesOk(SavedAs(e, v, record, now))
  {
    hide NamesOk, Written, DistinctIds;
    WrittenNames(e, v.(revision := v.revision + 1, updatedAt := now), record);
  }

  lemma SettledTurnNames(h: Harness, e: Engine, latest: HostSession, id: string, error: Option<string>, env: Env)
    requires KeepsNames(h) && NamesOk(e) && id in e.tables.sessions && DistinctIds(latest.session.blocks)
    requires env.newId !in IdSet(latest.session.blocks)
    ensures NamesOk(SettledTurn(h, e, latest, id, error, env))
  {
    hide SettledValue, Message, SavedAs, NamesOk, KeepsNames, DistinctIds, IdSet;
    var failed := id in e.running && e.running[id].persistenceFailed;
    var status, message := if e.closing || failed then Interrupted else Idle, Message(e, id, error);
    SettledNames(h, latest, status, message, env.now, env.newId);
    SavedNames(e, SettledValue(h, latest, status, message, env.now, env.newId),
               Settled(error, id in e.running && e.running[id].cancelled), env.now);
  }

  lemma InterruptedNames(h: Harness, e: Engine, latest: HostSession, env: Env)
    requires KeepsNames(h) && NamesOk(e) && DistinctIds(latest.session.blocks)
    requires env.newId !in IdSet(latest.session.blocks)
    ensures NamesOk(InterruptedRun(h, e, latest, env))
  {
    hide SettledValue, SavedAs, NamesOk, KeepsNames, DistinctIds, IdSet;
    SettledNames(h, latest, Interrupted, Some(STORAGE_FAILED), latest.updatedAt, env.newId);
    SavedNames(e, SettledValue(h, latest, Interrupted, Some(STORAGE_FAILED), latest.updatedAt, env.newId),
               InterruptedTurn(Some("persistence failure")), env.now);
  }

  lemma EndsKeepNames(h: Harness, e: Engine, r: string, env: Env)
    requires Lawful(h) && KeepsNames(h) && Inv(h, e) && NamesOk(e) && r in e.turns
    requires forall id :: id in e.tables.sessions ==> env.newId !in IdSet(Effective(e, id).session.blocks)
    ensures NamesOk(Stopped(h, e, r, env)) && NamesOk(RetriedStop(h, e, r, env))
  {
    var id, error := e.turns[r].sessionId, e.turns[r].error;
    FailedNames(e, id, r);
    hide Inv, Flushed, NamesOk, FlushThrows, KeepsNames, Core, Failed, StoppedFlushed, RetriedFlushed;
    if !FlushThrows(e, id, env.flushFails) {
      FlushKeeps(h, e, id, env.now, env.flushFails);
      FlushNames(h, e, id, env.now, env.flushFails);
      var flushed := Flushed(e, id, env.now, env.flushFails);
      var gone := flushed.(live := flushed.live - {id});
      SameTables(flushed, gone);
      if id in flushed.tables.sessions { SameParts(flushed.tables.sessions[id], Effective(e, id)); }
      RetryNames(h, flushed, id, r, env);
      StopNames(h, gone, id, r, error, env);
    }
  }

  lemma RestartNames(h: Harness, e: Engine, env: Env, e': Engine)
    requires Lawful(h) && KeepsNames(h) && Inv(h, e) && NamesOk(e) && Restarted(h, e, env, e')
    requires forall id :: id in e.tables.sessions ==> env.newId !in IdSet(e.tables.sessions[id].session.blocks)
    ensures NamesOk(e')
  {
    var ids: seq<string> :| (forall id :: id in ids <==> id in e.tables.sessions)
      && (forall i, j :: 0 <= i < j < |ids| ==> ids[i] != ids[j]) && e' == RecoveredAll(h, Booted(e), ids, env);
    forall x | x in e.tables.sessions ensures e.tables.sessions[x].session.id == x { StoredFacts(h, e, x); }
    hide Inv, RecoveredAll, DistinctIds, KeepsNames, Restarted;
    forall id | id in e'.tables.sessions ensures DistinctIds(e'.tables.sessions[id].session.blocks) {
      RecoveredAt(h, Booted(e), ids, env, id);
      var v := e.tables.sessions[id];
      if v.status == Running {
        SettledNames(h, v, Interrupted, Some(RESTARTED), v.updatedAt, env.newId);
        SameParts(e'.tables.sessions[id], RecoveredValue(h, v, env));
      }
    }
  }

  /** Every step keeps block ids distinct. */
  lemma StepKeepsNames(h: Harness, e: Engine, op: Op, env: Env, e': Engine)
    requires Lawful(h) && KeepsNames(h) && Inv(h, e) && NamesOk(e) && Step(h, e, op, env, e')
    requires NewNames(e, op, env)
    ensures NamesOk(e')
  {
    hide Inv, NamesOk, KeepsNames, Issued, TimerFlushed, Stopped, RetriedStop, Restarted, Updated, Titled, Branched,
      Started, SwitchBegun, Closed, Emitted, Flushed;
    match op
    case Issue(c) => IssuedNames(h, e, c, env);
    case Emit(id, runId, event) => EmitNames(h, e, id, runId, event, env);
    case Timer(id) => FlushNames(h, e, id, env.now, env.flushFails);
    case TurnStopped(r) => if r in e.turns { EndsKeepNames(h, e, r, env); }
    case RetryStopped(r) => if r in e.turns { EndsKeepNames(h, e, r, env); }
    case Update(id, patch) => EditsKeepNames(h, e, op, env, e');
    case NameTitle(id, expected, title) => EditsKeepNames(h, e, op, env, e');
    case NameBranch(id, branch) => EditsKeepNames(h, e, op, env, e');
    case Delete(id) => RemovedNames(e, id, env);
    case Restart => RestartNames(h, e, env, e');
    case StartTurn(r) => StartedFrame(e, r); SameTables(e, e');
    case BeginSwitch(p) => SwitchFrame(e, p); SameTables(e, e');
    case Close => ClosedFrame(e); SameTables(e, e');
    case _ => SameTables(e, e');
  }

  lemma EmitNames(h: Harness, e: Engine, id: string, runId: string, event: HarnessEvent, env: Env)
    requires Lawful(h) && KeepsNames(h) && Inv(h, e) && NamesOk(e)
    ensures NamesOk(Emitted(h, e, id, runId, event, env))
  {
    hide Inv, NamesOk, KeepsNames, TimerFlushed;
    if Accepts(e, id, runId) && h.apply(e.live[id].value.session, event).Some? {
      AcceptedKeeps(h, e, id, event);
      SameTables(e, Pushed(h, e, id, event));
      FlushNames(h, Pushed(h, e, id, event), id, env.now, env.flushFails);
    }
  }

  lemma RemovedNames(e: Engine, id: string, env: Env)
    requires NamesOk(e)
    ensures NamesOk(Removed(e, id, env))
  {
    hide DistinctIds, CanDelete;
  }

  ghost predicate NamesAreNew(states: seq<Engine>, ops: seq<Op>, envs: seq<Env>)
    requires |ops| < |states| && |envs| == |ops|
  {
    forall i :: 0 <= i < |ops| ==> NewNames(states[i], ops[i], envs[i])
  }

  lemma {:induction false} NamesStayDistinct(h: Harness, states: seq<Engine>, ops: seq<Op>, envs: seq<Env>, i: nat)
    requires Lawful(h) && KeepsNames(h) && Run(h, states, ops, envs) && Inv(h, states[0]) && NamesOk(states[0])
    requires NamesAreNew(states, ops, envs) && i < |states|
    ensures NamesOk(states[i])
    decreases i
  {
    hide Inv, Lawful, KeepsNames, NamesOk, Step, Fair, NewNames;
    if i > 0 {
      NamesStayDistinct(h, states, ops, envs, i - 1);
      InvHolds(h, states, ops, envs, i - 1);
      StepKeepsNames(h, states[i - 1], ops[i - 1], envs[i - 1], states[i]);
    }
  }

  /** With new ids for new commands, a client that holds any revision ever saved, or none, gets exactly the
      current session from one sync, at every point of every run. */
  lemma ClientsConverge(h: Harness, states: seq<Engine>, ops: seq<Op>, envs: seq<Env>, i: nat, id: string,
                        known: Option<HostSession>)
    requires Lawful(h) && KeepsNames(h) && Run(h, states, ops, envs) && Inv(h, states[0]) && NamesOk(states[0])
    requires NamesAreNew(states, ops, envs) && i < |states|
    requires id in states[i].tables.sessions && ClientHolds(states[i], id, known)
    ensures var v := states[i].tables.sessions[id];
            Apply(known, SyncOf(v, if known.Some? then Some(known.value.revision) else None)) == Ok(Shown(v))
  {
    NamesStayDistinct(h, states, ops, envs, i);
    DistinctDecide(states[i].tables.sessions[id].session.blocks);
    hide Inv, Lawful, KeepsNames, SyncOf, Apply, Run, NamesAreNew;
    ClientsConvergeIff(h, states, ops, envs, i, id, known);
  }

  lemma DistinctDecide(blocks: seq<Block>)
    ensures DistinctIds(blocks) ==> IdsDecide(blocks)
  {
  }
}
