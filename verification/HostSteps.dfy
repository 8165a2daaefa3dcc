/** `host/engine.ts` on values: what each synchronous stretch of the host between two
    `await`s does to the stored sessions and to the maps in memory. */
module HostSteps {
  import opened Wrappers
  import opened HostSessions
  import opened DeltaSync
  import opened HostStores

  /** What other files decide: the transcript reducer (`apply` gives nothing when it
      returns the session it was given), the end of streaming, titles, attachments,
      worktrees and providers. */
  datatype Harness = Harness(
    apply: (Session, HarnessEvent) -> Option<Session>,
    stop: (Session, Time) -> Session,
    title: (string, string, seq<string>) -> string,
    isPlaceholder: (string, string) -> bool,
    attachments: seq<string> -> Option<seq<string>>,
    worktree: (string, Option<string>) -> Option<string>,
    available: string -> bool,
    compacts: string -> bool)

  /** Ending a stream does not rename the session. */
  ghost predicate StopKeepsId(h: Harness) { forall s, at :: h.stop(s, at).id == s.id }

  datatype Active = Active(runId: string, cancelled: bool, persistenceFailed: bool)

  /** A running session with the events not yet written. */
  datatype Live = Live(value: HostSession, events: seq<HarnessEvent>)

  /** Where the promise chain of a turn waits. */
  datatype Phase = Queued | InProvider | Stopping | RetryArmed | RetryStopping

  datatype Turn = Turn(sessionId: string, commandId: string, phase: Phase, error: Option<string>)

  /** `turns` are the pending promise chains by run; `dispatched` the commands handed to
      a provider so far, `used` the identifiers ever generated, and `past` the values
      saved so far: these three only observe. */
  datatype Engine = Engine(
    tables: Tables, projects: map<string, string>,
    running: map<string, Active>, live: map<string, Live>, retryTimers: map<string, string>,
    turns: map<string, Turn>, switching: set<string>, closing: bool,
    dispatched: seq<string>, used: set<string>, past: map<string, map<int, HostSession>>)

  /** The clock, new identifiers, and which calls fail. */
  datatype Env = Env(
    now: Time, newId: string, runId: string,
    flushFails: bool, saveFails: bool, stopFails: bool, bindThrows: bool)

  datatype Op =
    | Issue(command: Command)
    | Emit(sessionId: string, runId: string, event: HarnessEvent)
    | Timer(sessionId: string)
    | StartTurn(runId: string)
    | ProviderDone(runId: string, error: Option<string>)
    | TurnStopped(runId: string)
    | RetryDue(sessionId: string)
    | RetryStopped(runId: string)
    | Update(sessionId: string, patch: Patch)
    | NameTitle(sessionId: string, expected: string, title: string)
    | NameBranch(sessionId: string, branch: string)
    | Delete(sessionId: string)
    | BeginSwitch(projectId: string)
    | EndSwitch(projectId: string)
    | Close
    | Restart

  const BATCHED: set<string> := {"message.delta", "reasoning.delta", "tool.updated", "agent.step", "status"}

  predicate IsBatched(event: HarnessEvent) { event.Streamed? && event.kind in BATCHED }

  function AppliedTo(h: Harness, s: Session, event: HarnessEvent): Session {
    if h.apply(s, event).Some? then h.apply(s, event).value else s
  }

  function Fold(h: Harness, s: Session, events: seq<HarnessEvent>): Session
    decreases |events|
  {
    if events == [] then s else AppliedTo(h, Fold(h, s, events[..|events| - 1]), events[|events| - 1])
  }

  // ------------------------------------------------------------------ saving

  function PastOf(e: Engine, id: string): map<int, HostSession> { if id in e.past then e.past[id] else map[] }

  /** A value written as it is, which a save and a command do with the next revision. */
  function Written(e: Engine, input: HostSession, record: Record): (next: Engine)
    ensures input.session.id in next.tables.sessions
  {
    var id := input.session.id;
    var tables := Saved(e.tables, input, record);
    e.(tables := tables, past := e.past[id := PastOf(e, id)[input.revision := tables.sessions[id]]])
  }

  function SavedAs(e: Engine, value: HostSession, record: Record, now: Time): Engine {
    Written(e, value.(revision := value.revision + 1, updatedAt := now), record)
  }

  predicate FlushThrows(e: Engine, id: string, fails: bool) {
    fails && id in e.live && e.live[id].events != []
  }

  function Flushed(e: Engine, id: string, now: Time, fails: bool): Engine {
    if id !in e.live || e.live[id].events == [] || fails then e
    else
      var live := e.live[id];
      var next := SavedAs(e, live.value, Events(live.events), now);
      next.(live := e.live[id := Live(next.tables.sessions[live.value.session.id], [])])
  }

  function TimerFlushed(e: Engine, id: string, now: Time, fails: bool): Engine {
    var next := Flushed(e, id, now, fails);
    if FlushThrows(e, id, fails) && id in e.running
    then next.(running := e.running[id := e.running[id].(persistenceFailed := true)]) else next
  }

  /** A live session follows what was just stored. */
  function Refreshed(e: Engine, id: string): Engine {
    if id in e.live && id in e.tables.sessions
    then e.(live := e.live[id := e.live[id].(value := e.tables.sessions[id])]) else e
  }

  // ------------------------------------------------------------------ events

  predicate Accepts(e: Engine, id: string, runId: string) {
    id in e.live && e.live[id].value.runId == Some(runId) && e.live[id].value.status == Running
  }

  function Emitted(h: Harness, e: Engine, id: string, runId: string, event: HarnessEvent, env: Env): Engine {
    if !Accepts(e, id, runId) || h.apply(e.live[id].value.session, event).None? then e
    else
      var live := e.live[id];
      var session := h.apply(live.value.session, event).value;
      var next := e.(live := e.live[id := Live(live.value.(session := session), live.events + [event])]);
      if IsBatched(event) then next else TimerFlushed(next, id, env.now, env.flushFails)
  }

  // ---------------------------------------------------------------- settling

  function SettledBlock(b: Block, status: PlanStatus): Block {
    if b.role == PlanRole && b.plan.Some? && b.plan.value.status == Building
    then b.(plan := Some(b.plan.value.(status := status))) else b
  }

  function SettledBlocks(blocks: seq<Block>, status: PlanStatus): seq<Block> {
    seq(|blocks|, i requires 0 <= i < |blocks| => SettledBlock(blocks[i], status))
  }

  predicate Says(message: Option<string>) { message.Some? && message.value != "" }

  function SettledValue(h: Harness, v: HostSession, status: Status, message: Option<string>, endedAt: Time, newId: string): HostSession {
    var stopped := h.stop(v.session, endedAt);
    var plan := if status == Idle && !Says(message) then Built else Ready;
    var blocks := SettledBlocks(stopped.blocks, plan);
    var notice := if Says(message) then [SystemBlock(newId, message.value)] else [];
    v.(status := status, session := stopped.(blocks := blocks + notice))
  }

  function SystemBlock(id: string, text: string): Block {
    Block(id, System, text, false, false, None, None, [], None, None, "")
  }

  const RESTARTED := "Host restarted. This turn was interrupted; inspect its work before continuing."
  const STORAGE_FAILED := "Session storage failed during this turn. Inspect its work before continuing."
  const HOST_STOPPED := "Host stopped. This turn was interrupted."
  const STOPPED_BY_YOU := "Stopped by you."

  /** The handler of a failed turn: try again in a second, unless the host is closing. */
  function Failed(e: Engine, id: string, runId: string): Engine {
    if e.closing || id in e.retryTimers then e.(turns := e.turns - {runId})
    else e.(retryTimers := e.retryTimers[id := runId],
            turns := if runId in e.turns then e.turns[runId := e.turns[runId].(phase := RetryArmed)] else e.turns)
  }

  function Done(e: Engine, runId: string): Engine { e.(turns := e.turns - {runId}) }

  predicate BindThrows(v: HostSession, env: Env) { v.session.providerSessionId.Some? && env.bindThrows }

  /** After the provider of a turn has stopped: write what is pending, settle, let go. */
  function Stopped(h: Harness, e: Engine, runId: string, env: Env): Engine
    requires runId in e.turns
  {
    var id := e.turns[runId].sessionId;
    if env.stopFails || FlushThrows(e, id, env.flushFails) then Failed(e, id, runId)
    else
      var flushed := Flushed(e, id, env.now, env.flushFails);
      StoppedFlushed(h, flushed.(live := flushed.live - {id}), id, runId, e.turns[runId].error, env)
  }

  function StoppedFlushed(h: Harness, e: Engine, id: string, runId: string, error: Option<string>, env: Env): Engine {
    if id !in e.tables.sessions then Failed(e, id, runId)
    else
      var latest := e.tables.sessions[id];
      if latest.runId == Some(runId) && env.saveFails then Failed(e, id, runId)
      else
        var saved := if latest.runId == Some(runId) then SettledTurn(h, e, latest, id, error, env) else e;
        Freed(saved.(running := saved.running - {id}), id, saved.tables.sessions[id], runId, env)
  }

  /** The last act of a turn: the provider is bound again for a later one. */
  function Freed(e: Engine, id: string, bound: HostSession, runId: string, env: Env): Engine {
    if BindThrows(bound, env) then Failed(e, id, runId) else Done(e, runId)
  }

  function Message(e: Engine, id: string, error: Option<string>): Option<string> {
    if e.closing then Some(HOST_STOPPED)
    else if id in e.running && e.running[id].persistenceFailed then Some(STORAGE_FAILED)
    else if id in e.running && e.running[id].cancelled then Some(STOPPED_BY_YOU)
    else error
  }

  function SettledTurn(h: Harness, e: Engine, latest: HostSession, id: string, error: Option<string>, env: Env): (next: Engine)
    requires id in e.tables.sessions
    ensures id in next.tables.sessions
  {
    var failed := id in e.running && e.running[id].persistenceFailed;
    var status := if e.closing || failed then Interrupted else Idle;
    SavedAs(e, SettledValue(h, latest, status, Message(e, id, error), env.now, env.newId),
            Settled(error, id in e.running && e.running[id].cancelled), env.now)
  }

  /** The retry after a failure, once the provider has stopped again. */
  function RetriedStop(h: Harness, e: Engine, runId: string, env: Env): Engine
    requires runId in e.turns
  {
    var id := e.turns[runId].sessionId;
    if env.stopFails || FlushThrows(e, id, env.flushFails) then Failed(e, id, runId)
    else RetriedFlushed(h, Flushed(e, id, env.now, env.flushFails), id, runId, env)
  }

  predicate StillRuns(v: HostSession, runId: string) { v.runId == Some(runId) && v.status == Running }

  function RetriedFlushed(h: Harness, e: Engine, id: string, runId: string, env: Env): Engine {
    if id !in e.tables.sessions then Failed(e, id, runId)
    else
      var latest := e.tables.sessions[id];
      if StillRuns(latest, runId) && env.saveFails then Failed(e, id, runId)
      else
        var saved := if StillRuns(latest, runId) then InterruptedRun(h, e, latest, env) else e;
        Freed(saved.(live := saved.live - {id}, running := saved.running - {id}), id, latest, runId, env)
  }

  function InterruptedRun(h: Harness, e: Engine, latest: HostSession, env: Env): Engine {
    SavedAs(e, SettledValue(h, latest, Interrupted, Some(STORAGE_FAILED), latest.updatedAt, env.newId),
            InterruptedTurn(Some("persistence failure")), env.now)
  }

  // ---------------------------------------------------------------- commands

  function WithoutDrafts(blocks: seq<Block>): (r: seq<Block>)
    ensures forall b :: b in r <==> b in blocks && !b.draft
  {
    if blocks == [] then []
    else if blocks[0].draft then WithoutDrafts(blocks[1..]) else [blocks[0]] + WithoutDrafts(blocks[1..])
  }

  function WithoutId(blocks: seq<Block>, id: string): (r: seq<Block>)
    ensures forall b :: b in r <==> b in blocks && b.id != id
  {
    if blocks == [] then []
    else if blocks[0].id == id then WithoutId(blocks[1..], id) else [blocks[0]] + WithoutId(blocks[1..], id)
  }

  /** The first draft with an id. */
  function FindDraft(blocks: seq<Block>, id: string): (b: Option<Block>)
    ensures b.Some? ==> b.value in blocks && b.value.draft && b.value.id == id
    ensures b.None? ==> forall x :: x in blocks && x.draft ==> x.id != id
  {
    if blocks == [] then None
    else if blocks[0].id == id && blocks[0].draft then Some(blocks[0]) else FindDraft(blocks[1..], id)
  }

  /** The index of the first plan with an id, or the number of blocks. */
  function FindPlan(blocks: seq<Block>, id: string): (i: nat)
    ensures i <= |blocks| && (i < |blocks| ==> blocks[i].id == id && blocks[i].role == PlanRole)
  {
    if blocks == [] then 0
    else if blocks[0].id == id && blocks[0].role == PlanRole then 0 else 1 + FindPlan(blocks[1..], id)
  }

  predicate ReadyToBuild(b: Block) {
    !IsBlank(b.text) && !b.streaming && (b.plan.Some? ==> b.plan.value.status != Building && b.plan.value.status != Built)
  }

  function Created(h: Harness, projects: map<string, string>, switching: set<string>, c: Command, env: Env): Option<HostSession>
    requires c.Create?
  {
    if c.projectId !in projects || c.projectId in switching || !h.available(c.harness) then None
    else
      var cwd := h.worktree(projects[c.projectId], c.worktreeCwd);
      if cwd.None? then None else
      Some(HostSession(
        Session(env.newId, cwd.value, c.harness, c.model, c.modelSettings, c.runtimeMode, "New remote session",
                false, None, None, None, c.autoWorktreeBranch, false, [], ""),
        c.projectId, 0, None, Idle, Some(env.now), env.now, false, false, c.autoWorktreeBranch, None))
  }

  function Drafted(h: Harness, v: HostSession, c: Command): Option<HostSession>
    requires c.Draft?
  {
    var s := v.session;
    var files := h.attachments(c.attachments);
    if v.status == Running || HasDraft(s.blocks) || files.None? then None
    else
      var title := if s.blocks == [] then h.title(c.text, s.harness, files.value) else s.title;
      var block := Block(c.commandId, User, c.text, true, false, None, None, files.value, None, None, "");
      Some(v.(session := s.(title := title, blocks := s.blocks + [block])))
  }

  /** The user turn of a send or a compaction. */
  function Prompted(h: Harness, v: HostSession, c: Command, files: seq<string>, blocks: seq<Block>, env: Env): HostSession
    requires c.Send? || c.Compact?
  {
    var s := v.session;
    var first := c.Send? && WithoutDrafts(s.blocks) == [];
    var placeholder := s.title == "New remote session" || h.isPlaceholder(s.title, s.harness);
    var block := Block(c.commandId, User, if c.Compact? then "/compact" else c.text, false, false, None, None,
                       files, Some(env.now), Some(s.model), "");
    v.(status := Running, runId := Some(env.runId),
       session := s.(busy := true, pendingQuestion := None,
                     title := if first && placeholder then h.title(c.text, s.harness, files) else s.title,
                     blocks := WithoutDrafts(blocks) + [block]))
  }

  function Sent(h: Harness, v: HostSession, c: Command, env: Env): Option<HostSession>
    requires c.Send?
  {
    var blocks := v.session.blocks;
    var draft := if c.draftBlockId.Some? then FindDraft(blocks, c.draftBlockId.value) else None;
    var plan := if c.planBlockId.Some? then FindPlan(blocks, c.planBlockId.value) else |blocks|;
    if v.status == Running || (c.draftBlockId.Some? && draft.None?) then None
    else if c.planBlockId.Some? && (plan == |blocks| || !ReadyToBuild(blocks[plan])) then None
    else
      var files := if draft.Some? && draft.value.attachments != [] then Some(draft.value.attachments)
                   else h.attachments(c.attachments);
      if files.None? then None else
      var marked := if plan == |blocks| then blocks
                    else blocks[plan := blocks[plan].(plan := Some(Plan(Building, Some(blocks[plan].text))))];
      Some(Prompted(h, v, c, files.value, marked, env))
  }

  /** The value a command makes of a session, or nothing where it is refused. */
  function Commanded(h: Harness, switching: set<string>, v: HostSession, c: Command, env: Env): Option<HostSession>
    requires !c.Create?
  {
    if (c.Send? || c.Compact?) && v.projectId in switching then None
    else if !h.available(v.session.harness) then None
    else
      match c
      case Configure(_, _, model, settings, mode) =>
        if v.status == Running then None
        else Some(v.(session := v.session.(model := model, modelSettings := settings, runtimeMode := mode)))
      case Draft(_, _, _, _) => Drafted(h, v, c)
      case RemoveDraft(_, _, id) =>
        if FindDraft(v.session.blocks, id).None? then None
        else Some(v.(session := v.session.(blocks := WithoutId(v.session.blocks, id))))
      case Send(_, _, _, _, _, _, _) => Sent(h, v, c, env)
      case Compact(_, _) =>
        if v.status == Running || !h.compacts(v.session.harness) then None
        else Some(Prompted(h, v, c, [], v.session.blocks, env))
      case Cancel(_, _, runId) => if v.runId == Some(runId) && v.status == Running then Some(v) else None
      case Approve(_, _, runId, request, decision) =>
        if v.runId == Some(runId) && v.status == Running && IsPending(v.session.blocks, request)
        then Some(v.(session := AppliedTo(h, v.session, ApprovalResolved(request, decision)))) else None
      case Answer(_, _, runId, request, _) =>
        if v.runId == Some(runId) && v.status == Running && v.session.pendingQuestion == Some(request)
        then Some(v.(session := v.session.(pendingQuestion := None))) else None
  }

  predicate IsPending(blocks: seq<Block>, request: int) {
    exists i :: 0 <= i < |blocks| && blocks[i].approval.Some?
                && blocks[i].approval.value.requestId == request && blocks[i].approval.value.decided.None?
  }

  datatype Refusal = HostStopping | IdReused | StorageFailed | Rejected

  predicate Replayed(e: Engine, c: Command) { c.commandId in e.tables.receipts }

  /** What a command answers once it got past the receipts and the flush. */
  function Outcome(h: Harness, e: Engine, c: Command, env: Env): Option<HostSession> {
    if c.Create? then Created(h, e.projects, e.switching, c, env)
    else if c.sessionId in e.tables.sessions then Commanded(h, e.switching, e.tables.sessions[c.sessionId], c, env)
    else None
  }

  function ReceiptOf(c: Command, v: HostSession): Receipt { Receipt(c.commandId, v.session.id, v.revision + 1) }

  /** The transaction of an accepted command. */
  function Stored(e: Engine, c: Command, v: HostSession, env: Env): (next: Engine)
    ensures v.session.id in next.tables.sessions
  {
    var input := v.(revision := v.revision + 1, updatedAt := if c.Create? then v.updatedAt else env.now);
    var saved := Written(e, input, HostSessions.Commanded(c));
    saved.(tables := saved.tables.(receipts := e.tables.receipts[c.commandId := Entry(c, ReceiptOf(c, v))]))
  }

  /** What follows the transaction. */
  function Effect(e: Engine, c: Command, id: string, env: Env): Engine
    requires id in e.tables.sessions
  {
    if c.Send? || c.Compact? then
      e.(running := e.running[id := Active(env.runId, false, false)],
         live := e.live[id := Live(e.tables.sessions[id], [])],
         turns := e.turns[env.runId := Turn(id, c.commandId, Queued, None)])
    else if c.Cancel? && id in e.running then e.(running := e.running[id := e.running[id].(cancelled := true)])
    else e
  }

  function Committed(e: Engine, c: Command, v: HostSession, env: Env): Engine {
    var id := v.session.id;
    NewIds(Effect(Refreshed(Stored(e, c, v, env), id), c, id, env), env)
  }

  function NewIds(e: Engine, env: Env): Engine { e.(used := e.used + {env.newId, env.runId}) }

  function Issued(h: Harness, e: Engine, c: Command, env: Env): (Engine, Result<Receipt, Refusal>) {
    if e.closing then (e, Err(HostStopping))
    else if Replayed(e, c) then
      (e, if e.tables.receipts[c.commandId].signature != c then Err(IdReused)
          else Ok(e.tables.receipts[c.commandId].receipt))
    else if !c.Create? && FlushThrows(e, c.sessionId, env.flushFails) then (e, Err(StorageFailed))
    else IssuedFlushed(h, if c.Create? then e else Flushed(e, c.sessionId, env.now, env.flushFails), c, env)
  }

  function IssuedFlushed(h: Harness, e: Engine, c: Command, env: Env): (Engine, Result<Receipt, Refusal>) {
    var value := Outcome(h, e, c, env);
    if value.None? then (e, Err(Rejected))
    else if env.saveFails then (e, Err(StorageFailed))
    else (Committed(e, c, value.value, env), Ok(ReceiptOf(c, value.value)))
  }

  // ----------------------------------------------------------- everything else

  function Started(e: Engine, runId: string): Engine {
    if runId !in e.turns || e.turns[runId].phase != Queued then e
    else
      var turn := e.turns[runId];
      var cancelled := turn.sessionId in e.running && e.running[turn.sessionId].cancelled;
      if e.closing || cancelled then e.(turns := e.turns[runId := turn.(phase := Stopping)])
      else e.(turns := e.turns[runId := turn.(phase := InProvider)], dispatched := e.dispatched + [turn.commandId])
  }

  function Updated(e: Engine, id: string, patch: Patch, env: Env): Engine {
    if FlushThrows(e, id, env.flushFails) then e
    else Edited(Flushed(e, id, env.now, env.flushFails), id, v => if ValidPatch(patch) then Some(Patched(v, patch)) else None,
                Metadata(patch), env)
  }

  /** A generated title, unless the session was renamed meanwhile. */
  function Titled(e: Engine, id: string, expected: string, title: string, env: Env): Engine {
    if FlushThrows(e, id, env.flushFails) then e
    else Edited(Flushed(e, id, env.now, env.flushFails), id, v => NewTitle(v, expected, title, env), GeneratedTitle, env)
  }

  function NewTitle(v: HostSession, expected: string, title: string, env: Env): Option<HostSession> {
    if v.session.title != expected then None
    else Some(v.(revision := v.revision + 1, updatedAt := env.now, session := v.session.(title := title)))
  }

  function Branched(e: Engine, id: string, branch: string, env: Env): Engine {
    if FlushThrows(e, id, env.flushFails) then e
    else Edited(Flushed(e, id, env.now, env.flushFails), id, v => Some(NewBranch(v, branch, env)), GeneratedBranch(branch), env)
  }

  function NewBranch(v: HostSession, branch: string, env: Env): HostSession {
    v.(revision := v.revision + 1, updatedAt := env.now, autoWorktreeBranch := None,
       session := v.session.(branch := Some(branch)))
  }

  /** An edit of a session on its latest state, unless it is refused. */
  function Edited(e: Engine, id: string, edit: HostSession -> Option<HostSession>, record: Record, env: Env): Engine {
    if id !in e.tables.sessions || env.saveFails || edit(e.tables.sessions[id]).None? then e
    else Refreshed(Written(e, edit(e.tables.sessions[id]).value, record), id)
  }

  predicate CanDelete(e: Engine, id: string) { id in e.tables.sessions && e.tables.sessions[id].status != Running }

  function Removed(e: Engine, id: string, env: Env): Engine {
    if !CanDelete(e, id) || env.saveFails then e
    else e.(tables := Deleted(e.tables, id), past := e.past - {id})
  }

  predicate IsBusy(e: Engine, projectId: string) {
    exists id :: id in e.tables.sessions && e.tables.sessions[id].projectId == projectId
                 && e.tables.sessions[id].status == Running
  }

  function SwitchBegun(e: Engine, projectId: string): Engine {
    if projectId in e.switching || IsBusy(e, projectId) then e else e.(switching := e.switching + {projectId})
  }

  function Closed(e: Engine): Engine {
    e.(closing := true, retryTimers := map[], turns := map r | r in e.turns && e.turns[r].phase != RetryArmed :: e.turns[r])
  }

  /** What a new process makes of a session that was running. */
  function RecoveredValue(h: Harness, v: HostSession, env: Env): HostSession {
    SettledValue(h, v, Interrupted, Some(RESTARTED), v.updatedAt, env.newId)
  }

  function RecoveredOne(h: Harness, e: Engine, id: string, env: Env): Engine {
    if id in e.tables.sessions && e.tables.sessions[id].status == Running
    then SavedAs(e, RecoveredValue(h, e.tables.sessions[id], env), InterruptedTurn(None), env.now) else e
  }

  function RecoveredAll(h: Harness, e: Engine, ids: seq<string>, env: Env): Engine
    decreases |ids|
  {
    if ids == [] then e else RecoveredOne(h, RecoveredAll(h, e, ids[..|ids| - 1], env), ids[|ids| - 1], env)
  }

  /** A process starts: nothing is in memory. */
  function Booted(e: Engine): Engine {
    e.(running := map[], live := map[], retryTimers := map[], turns := map[], switching := {}, closing := false)
  }

  ghost predicate Restarted(h: Harness, e: Engine, env: Env, e': Engine) {
    exists ids: seq<string> :: (forall id :: id in ids <==> id in e.tables.sessions)
      && (forall i, j :: 0 <= i < j < |ids| ==> ids[i] != ids[j])
      && e' == RecoveredAll(h, Booted(e), ids, env)
  }

  /** One step of the host. */
  ghost predicate Step(h: Harness, e: Engine, op: Op, env: Env, e': Engine) {
    match op
    case Issue(c) => e' == Issued(h, e, c, env).0
    case Emit(id, runId, event) => e' == Emitted(h, e, id, runId, event, env)
    case Timer(id) => e' == TimerFlushed(e, id, env.now, env.flushFails)
    case StartTurn(runId) => e' == Started(e, runId)
    case ProviderDone(runId, error) =>
      e' == if runId !in e.turns || e.turns[runId].phase != InProvider then e
            else e.(turns := e.turns[runId := e.turns[runId].(phase := Stopping, error := error)])
    case TurnStopped(runId) =>
      e' == if runId !in e.turns || e.turns[runId].phase != Stopping then e else Stopped(h, e, runId, env)
    case RetryDue(id) =>
      e' == if id !in e.retryTimers then e
            else e.(retryTimers := e.retryTimers - {id},
                    turns := if e.retryTimers[id] !in e.turns then e.turns
                             else e.turns[e.retryTimers[id] := e.turns[e.retryTimers[id]].(phase := RetryStopping)])
    case RetryStopped(runId) =>
      e' == if runId !in e.turns || e.turns[runId].phase != RetryStopping then e else RetriedStop(h, e, runId, env)
    case Update(id, patch) => e' == Updated(e, id, patch, env)
    case NameTitle(id, expected, title) => e' == Titled(e, id, expected, title, env)
    case NameBranch(id, branch) => e' == Branched(e, id, branch, env)
    case Delete(id) => e' == Removed(e, id, env)
    case BeginSwitch(projectId) => e' == SwitchBegun(e, projectId)
    case EndSwitch(projectId) => e' == e.(switching := e.switching - {projectId})
    case Close => e' == Closed(e)
    case Restart => Restarted(h, e, env, e')
  }
}
