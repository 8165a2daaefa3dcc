/** The records of a remote session: `src/features/connections/model/protocol.ts` and the
    fields of `Session` and `Block` that the host reads or writes. */
module HostSessions {
  import opened Wrappers

  type Time = int

  datatype Role = User | Assistant | System | PlanRole | Other

  datatype PlanStatus = Streaming | Ready | Building | Built

  datatype Plan = Plan(status: PlanStatus, approvedText: Option<string>)

  datatype Approval = Approval(requestId: int, decided: Option<string>)

  /** `extra` stands for the fields of a block that the host never looks at. */
  datatype Block = Block(
    id: string, role: Role, text: string, draft: bool, streaming: bool, plan: Option<Plan>,
    approval: Option<Approval>, attachments: seq<string>, startedAt: Option<Time>,
    turnModel: Option<string>, extra: string)

  datatype Session = Session(
    id: string, cwd: string, harness: string, model: string, modelSettings: map<string, string>,
    runtimeMode: string, title: string, busy: bool, pendingQuestion: Option<int>,
    providerSessionId: Option<string>, linkedWorkItem: Option<string>, branch: Option<string>,
    worktreeRemoved: bool, blocks: seq<Block>, extra: string)

  datatype Status = Idle | Running | Interrupted

  /** `createdAt` and `blockRevisions` are missing from rows of older versions. */
  datatype HostSession = HostSession(
    session: Session, projectId: string, revision: int, runId: Option<string>, status: Status,
    createdAt: Option<Time>, updatedAt: Time, archived: bool, pinned: bool,
    autoWorktreeBranch: Option<string>, blockRevisions: Option<map<string, int>>)

  function Ids(blocks: seq<Block>): seq<string> { seq(|blocks|, i requires 0 <= i < |blocks| => blocks[i].id) }

  predicate DistinctIds(blocks: seq<Block>) {
    forall i, j :: 0 <= i < j < |blocks| ==> blocks[i].id != blocks[j].id
  }

  predicate HasPendingApproval(blocks: seq<Block>) {
    exists i :: 0 <= i < |blocks| && blocks[i].approval.Some? && blocks[i].approval.value.decided.None?
  }

  predicate NeedsInput(s: Session) {
    !s.worktreeRemoved && (HasPendingApproval(s.blocks) || s.pendingQuestion.Some?)
  }

  predicate HasDraft(blocks: seq<Block>) {
    exists i :: 0 <= i < |blocks| && blocks[i].draft
  }

  // ------------------------------------------------- commands and log records

  /** What a provider reports, or a client's decision on an approval. */
  datatype HarnessEvent = Streamed(kind: string, payload: string) | ApprovalResolved(requestId: int, decision: string)

  datatype Command =
    | Create(commandId: string, projectId: string, worktreeCwd: Option<string>, autoWorktreeBranch: Option<string>,
             harness: string, model: string, modelSettings: map<string, string>, runtimeMode: string)
    | Configure(commandId: string, sessionId: string, model: string, modelSettings: map<string, string>, runtimeMode: string)
    | Compact(commandId: string, sessionId: string)
    | Send(commandId: string, sessionId: string, text: string, attachments: seq<string>, intent: Option<string>,
           draftBlockId: Option<string>, planBlockId: Option<string>)
    | Draft(commandId: string, sessionId: string, text: string, attachments: seq<string>)
    | RemoveDraft(commandId: string, sessionId: string, removedBlockId: string)
    | Cancel(commandId: string, sessionId: string, runId: string)
    | Approve(commandId: string, sessionId: string, runId: string, requestId: int, decision: string)
    | Answer(commandId: string, sessionId: string, runId: string, requestId: int, reply: string)

  datatype Receipt = Receipt(commandId: string, sessionId: string, revision: int)

  /** What `updateSession` may change; `linkedWorkItem` may be set to nothing. */
  datatype Patch = Patch(
    title: Option<string>, archived: Option<bool>, pinned: Option<bool>, linkedWorkItem: Option<Option<string>>)

  datatype Record =
    | Commanded(command: Command)
    | Events(events: seq<HarnessEvent>)
    | Settled(error: Option<string>, cancelled: bool)
    | InterruptedTurn(reason: Option<string>)
    | Metadata(patch: Patch)
    | GeneratedTitle
    | GeneratedBranch(branch: string)
}
