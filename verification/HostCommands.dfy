/** What an accepted command or edit of `host/engine.ts` leaves in its session, field by
    field, and what a summary shows of it. */
module HostCommands {
  import opened Wrappers
  import opened HostSessions
  import opened DeltaSync
  import opened HostStores
  import opened HostSteps
  import opened HostRuns
  import opened HostGuarantees
  import opened HostStreams
  import opened HostFailures
  import opened HostWriteThrough
  import opened HostEndings

  // ------------------------------------------------------------ lists of blocks

  /** `kept` is the blocks of `all` at the positions `at`, in their order. */
  ghost predicate Picks(all: seq<Block>, kept: seq<Block>, at: seq<nat>) {
    && |at| == |kept|
    && (forall i :: 0 <= i < |at| ==> at[i] < |all| && kept[i] == all[at[i]])
    && (forall i, j :: 0 <= i < j < |at| ==> at[i] < at[j])
  }

  function Shifted(at: seq<nat>): seq<nat> { seq(|at|, i requires 0 <= i < |at| => at[i] + 1) }

  lemma PickMore(all: seq<Block>, kept: seq<Block>, at: seq<nat>)
    requires all != [] && Picks(all[1..], kept, at)
    ensures Picks(all, kept, Shifted(at)) && Picks(all, [all[0]] + kept, [0] + Shifted(at))
    ensures forall k: nat :: k in Shifted(at) <==> k > 0 && k - 1 in at
  {
    ShiftedAt(at);
    hide Shifted;
  }

  lemma ShiftedAt(at: seq<nat>)
    ensures |Shifted(at)| == |at| && forall i :: 0 <= i < |at| ==> Shifted(at)[i] == at[i] + 1
    ensures forall k: nat :: k in Shifted(at) <==> k > 0 && k - 1 in at
  {
    forall k: nat ensures k in Shifted(at) <==> k > 0 && k - 1 in at {
      if k > 0 && k - 1 in at {
        var i :| 0 <= i < |at| && at[i] == k - 1;
        assert Shifted(at)[i] == k;
      }
    }
  }

  lemma {:induction false} UndraftedAre(blocks: seq<Block>) returns (at: seq<nat>)
    ensures Picks(blocks, WithoutDrafts(blocks), at)
    ensures forall k: nat :: k < |blocks| ==> (k in at <==> !blocks[k].draft)
    decreases |blocks|
  {
    at := [];
    if blocks != [] {
      at := UndraftedAre(blocks[1..]);
      PickMore(blocks, WithoutDrafts(blocks[1..]), at);
      at := if blocks[0].draft then Shifted(at) else [0] + Shifted(at);
      hide Picks;
    }
  }

  lemma {:induction false} OthersAre(blocks: seq<Block>, id: string) returns (at: seq<nat>)
    ensures Picks(blocks, WithoutId(blocks, id), at)
    ensures forall k: nat :: k < |blocks| ==> (k in at <==> blocks[k].id != id)
    decreases |blocks|
  {
    at := [];
    if blocks != [] {
      at := OthersAre(blocks[1..], id);
      PickMore(blocks, WithoutId(blocks[1..], id), at);
      at := if blocks[0].id == id then Shifted(at) else [0] + Shifted(at);
      hide Picks;
    }
  }

  /** The first block that is a draft, or a plan, with an id. */
  ghost predicate IsFirstDraft(blocks: seq<Block>, id: string, i: nat) {
    && i < |blocks| && blocks[i].id == id && blocks[i].draft
    && forall k :: 0 <= k < i ==> !(blocks[k].id == id && blocks[k].draft)
  }

  ghost predicate IsFirstPlan(blocks: seq<Block>, id: string, i: nat) {
    && i < |blocks| && blocks[i].id == id && blocks[i].role == PlanRole
    && forall k :: 0 <= k < i ==> !(blocks[k].id == id && blocks[k].role == PlanRole)
  }

  lemma {:induction false} FindPlanIsFirst(blocks: seq<Block>, id: string)
    ensures FindPlan(blocks, id) < |blocks| ==> IsFirstPlan(blocks, id, FindPlan(blocks, id))
    ensures FindPlan(blocks, id) == |blocks| ==>
              forall k :: 0 <= k < |blocks| ==> !(blocks[k].id == id && blocks[k].role == PlanRole)
    decreases |blocks|
  {
    if blocks != [] { FindPlanIsFirst(blocks[1..], id); }
  }

  lemma {:induction false} FindDraftIsFirst(blocks: seq<Block>, id: string) returns (i: nat)
    ensures FindDraft(blocks, id).Some? ==> IsFirstDraft(blocks, id, i) && blocks[i] == FindDraft(blocks, id).value
    decreases |blocks|
  {
    i := 0;
    if blocks != [] && !(blocks[0].id == id && blocks[0].draft) {
      i := FindDraftIsFirst(blocks[1..], id);
      i := i + 1;
    }
  }

  // ------------------------------------------------------------ what is accepted

  predicate HasText(s: string) { exists k :: 0 <= k < |s| && s[k] !in {' ', '\t', '\n', '\r'} }

  /** A plan that may be built: written, and neither being built nor built. */
  predicate MayBeBuilt(b: Block) {
    HasText(b.text) && !b.streaming && (b.plan.None? || b.plan.value.status == Streaming || b.plan.value.status == Ready)
  }

  /** The files of a message: those of the draft it comes from, if that has any. */
  ghost predicate FilesOf(h: Harness, v: HostSession, c: Command, files: seq<string>)
    requires c.Send?
  {
    if c.draftBlockId.Some? && (exists i: nat :: IsFirstDraft(v.session.blocks, c.draftBlockId.value, i)
                                                 && v.session.blocks[i].attachments != [])
    then exists i: nat :: IsFirstDraft(v.session.blocks, c.draftBlockId.value, i) && files == v.session.blocks[i].attachments
    else h.attachments(c.attachments) == Some(files)
  }

  /** When a command fits a session. */
  ghost predicate Fits(h: Harness, switching: set<string>, v: HostSession, c: Command)
    requires !c.Create?
  {
    var blocks := v.session.blocks;
    && h.available(v.session.harness)
    && match c
       case Configure(_, _, _, _, _) => v.status != Running
       case Draft(_, _, _, attachments) =>
         v.status != Running && (forall k :: 0 <= k < |blocks| ==> !blocks[k].draft) && h.attachments(attachments).Some?
       case RemoveDraft(_, _, id) => exists i: nat :: i < |blocks| && blocks[i].id == id && blocks[i].draft
       case Send(_, _, _, _, _, draft, plan) =>
         && v.status != Running && v.projectId !in switching && NamesWhatIsThere(blocks, draft, plan)
         && exists files :: FilesOf(h, v, c, files)
       case Compact(_, _) => v.status != Running && v.projectId !in switching && h.compacts(v.session.harness)
       case Cancel(_, _, runId) => v.runId == Some(runId) && v.status == Running
       case Approve(_, _, runId, request, _) =>
         && v.runId == Some(runId) && v.status == Running
         && exists i: nat :: i < |blocks| && blocks[i].approval.Some? && blocks[i].approval.value.requestId == request
                             && blocks[i].approval.value.decided.None?
       case Answer(_, _, runId, request, _) =>
         v.runId == Some(runId) && v.status == Running && v.session.pendingQuestion == Some(request)
  }

  lemma HasTextIff(s: string)
    ensures HasText(s) <==> !IsBlank(s)
  {
    if !IsBlank(s) {
      var c :| c in s && c !in {' ', '\t', '\n', '\r'};
      var k :| 0 <= k < |s| && s[k] == c;
    }
    if HasText(s) {
      var k :| 0 <= k < |s| && s[k] !in {' ', '\t', '\n', '\r'};
      assert s[k] in s;
    }
  }

  lemma FirstDraftIsOne(blocks: seq<Block>, id: string, i: nat, j: nat)
    requires IsFirstDraft(blocks, id, i) && IsFirstDraft(blocks, id, j)
    ensures i == j
  {
  }

  lemma FirstPlanIsOne(blocks: seq<Block>, id: string, i: nat, j: nat)
    requires IsFirstPlan(blocks, id, i) && IsFirstPlan(blocks, id, j)
    ensures i == j
  {
  }

  /** The files a send would take. */
  lemma FilesAre(h: Harness, v: HostSession, c: Command, env: Env)
    requires c.Send? && (c.draftBlockId.Some? ==> FindDraft(v.session.blocks, c.draftBlockId.value).Some?)
    ensures var draft := if c.draftBlockId.Some? then FindDraft(v.session.blocks, c.draftBlockId.value) else None;
            var files := if draft.Some? && draft.value.attachments != [] then Some(draft.value.attachments)
                         else h.attachments(c.attachments);
            forall f :: FilesOf(h, v, c, f) <==> files == Some(f)
  {
    if c.draftBlockId.Some? {
      var blocks, id := v.session.blocks, c.draftBlockId.value;
      var i := FindDraftIsFirst(blocks, id);
      forall j: nat | IsFirstDraft(blocks, id, j) ensures j == i { FirstDraftIsOne(blocks, id, i, j); }
      hide IsFirstDraft;
    }
  }

  lemma DraftExists(blocks: seq<Block>, id: string)
    ensures FindDraft(blocks, id).Some? <==> exists i: nat :: i < |blocks| && blocks[i].id == id && blocks[i].draft
  {
    if FindDraft(blocks, id).Some? {
      var b := FindDraft(blocks, id).value;
      var i :| 0 <= i < |blocks| && blocks[i] == b;
    }
  }

  lemma PlanExists(blocks: seq<Block>, id: string)
    ensures var i := FindPlan(blocks, id);
            (i < |blocks| && ReadyToBuild(blocks[i])) <==>
              exists j: nat :: IsFirstPlan(blocks, id, j) && MayBeBuilt(blocks[j])
  {
    FindPlanIsFirst(blocks, id);
    var i := FindPlan(blocks, id);
    if i < |blocks| { HasTextIff(blocks[i].text); }
    forall j: nat | IsFirstPlan(blocks, id, j) ensures j == i {
      if i < |blocks| { FirstPlanIsOne(blocks, id, i, j); }
    }
    hide IsFirstPlan, HasText, IsBlank;
  }

  /** The draft and the plan a send names are there, and the plan may be built. */
  ghost predicate NamesWhatIsThere(blocks: seq<Block>, draft: Option<string>, plan: Option<string>) {
    && (draft.Some? ==> exists i: nat :: i < |blocks| && blocks[i].id == draft.value && blocks[i].draft)
    && (plan.Some? ==> exists i: nat :: IsFirstPlan(blocks, plan.value, i) && MayBeBuilt(blocks[i]))
  }

  lemma NamesAreFound(blocks: seq<Block>, draft: Option<string>, plan: Option<string>)
    ensures NamesWhatIsThere(blocks, draft, plan) <==>
              && (draft.Some? ==> FindDraft(blocks, draft.value).Some?)
              && (plan.Some? ==> FindPlan(blocks, plan.value) < |blocks| && ReadyToBuild(blocks[FindPlan(blocks, plan.value)]))
  {
    if draft.Some? { DraftExists(blocks, draft.value); }
    if plan.Some? { PlanExists(blocks, plan.value); }
    hide IsFirstPlan, MayBeBuilt, ReadyToBuild, FindDraft, FindPlan;
  }

  lemma SendFits(h: Harness, v: HostSession, c: Command, env: Env)
    requires c.Send?
    ensures Sent(h, v, c, env).Some? <==>
              && v.status != Running && NamesWhatIsThere(v.session.blocks, c.draftBlockId, c.planBlockId)
              && exists files :: FilesOf(h, v, c, files)
  {
    var blocks := v.session.blocks;
    NamesAreFound(blocks, c.draftBlockId, c.planBlockId);
    hide NamesWhatIsThere, ReadyToBuild, Prompted, FindDraft, FindPlan, FilesOf;
    if NamesWhatIsThere(blocks, c.draftBlockId, c.planBlockId) {
      FilesAre(h, v, c, env);
      var draft := if c.draftBlockId.Some? then FindDraft(blocks, c.draftBlockId.value) else None;
      var files := if draft.Some? && draft.value.attachments != [] then Some(draft.value.attachments)
                   else h.attachments(c.attachments);
      assert (exists f :: FilesOf(h, v, c, f)) <==> files.Some? by {
        if files.Some? { assert FilesOf(h, v, c, files.value); }
      }
    }
  }

  lemma CommandFits(h: Harness, switching: set<string>, v: HostSession, c: Command, env: Env)
    requires !c.Create?
    ensures HostSteps.Commanded(h, switching, v, c, env).Some? <==> Fits(h, switching, v, c)
  {
    match c
    case Send(_, _, _, _, _, _, _) => SendFits(h, v, c, env);
    case RemoveDraft(_, _, id) => DraftExists(v.session.blocks, id);
    case _ =>
    hide Sent, Prompted, FindDraft, WithoutId, FilesOf, IsFirstPlan;
  }

  // ------------------------------------------------------------- what it leaves

  /** Only the conversation changes, and neither run nor status. */
  predicate KeepsRun(v: HostSession, w: HostSession) { SameRow(v, w) && w.status == v.status }

  /** The block of a message. */
  predicate IsMessage(b: Block, c: Command, text: string, draft: bool, files: seq<string>) {
    && b.id == c.commandId && b.role == User && b.text == text && b.draft == draft && b.attachments == files
    && !b.streaming && b.plan.None? && b.approval.None?
  }

  /** A block of the conversation as a message is sent: the plan it approves, if this is it,
      is now being built, and keeps the text that was approved. */
  predicate Goes(b: Block, after: Block, approved: bool) {
    if approved then after == b.(plan := Some(Plan(Building, Some(b.text)))) else after == b
  }

  /** Drafts go, every other block stays where it is, and the message comes last. */
  ghost predicate GoesOnWith(blocks: seq<Block>, after: seq<Block>, at: seq<nat>, plan: Option<string>) {
    && |after| == |at| + 1
    && (forall k: nat :: k < |blocks| ==> (k in at <==> !blocks[k].draft))
    && (forall i, j :: 0 <= i < j < |at| ==> at[i] < at[j])
    && (forall i :: 0 <= i < |at| ==>
          at[i] < |blocks| && Goes(blocks[at[i]], after[i], plan.Some? && IsFirstPlan(blocks, plan.value, at[i])))
  }

  /** A turn begins. */
  ghost predicate Begins(h: Harness, v: HostSession, c: Command, env: Env, w: HostSession, text: string, files: seq<string>,
                         at: seq<nat>, plan: Option<string>)
  {
    var blocks, after := v.session.blocks, w.session.blocks;
    && w.status == Running && w.runId == Some(env.runId) && SameRow(v.(runId := w.runId), w)
    && w.session == v.session.(busy := true, pendingQuestion := None, title := w.session.title, blocks := after)
    && GoesOnWith(blocks, after, at, plan)
    && IsMessage(after[|at|], c, text, false, files)
    && after[|at|].startedAt == Some(env.now) && after[|at|].turnModel == Some(v.session.model)
    && w.session.title ==
         if c.Send? && (forall k :: 0 <= k < |blocks| ==> blocks[k].draft)
            && (v.session.title == "New remote session" || h.isPlaceholder(v.session.title, v.session.harness))
         then h.title(text, v.session.harness, files) else v.session.title
  }

  /** What a command leaves. */
  ghost predicate Leaves(h: Harness, v: HostSession, c: Command, env: Env, w: HostSession)
    requires !c.Create?
  {
    var s, after := v.session, w.session;
    match c
    case Configure(_, _, model, settings, mode) =>
      KeepsRun(v, w) && after == s.(model := model, modelSettings := settings, runtimeMode := mode)
    case Draft(_, _, text, attachments) =>
      && KeepsRun(v, w) && h.attachments(attachments).Some? && |after.blocks| == |s.blocks| + 1
      && after.blocks[..|s.blocks|] == s.blocks
      && IsMessage(after.blocks[|s.blocks|], c, text, true, h.attachments(attachments).value)
      && after == s.(blocks := after.blocks, title := after.title)
      && after.title == (if s.blocks == [] then h.title(text, s.harness, h.attachments(attachments).value) else s.title)
    case RemoveDraft(_, _, id) =>
      && KeepsRun(v, w) && after == s.(blocks := after.blocks)
      && exists at :: Picks(s.blocks, after.blocks, at)
                      && forall k: nat :: k < |s.blocks| ==> (k in at <==> s.blocks[k].id != id)
    case Send(_, _, text, _, _, _, plan) =>
      exists at, files :: FilesOf(h, v, c, files) && Begins(h, v, c, env, w, text, files, at, plan)
    case Compact(_, _) => exists at :: Begins(h, v, c, env, w, "/compact", [], at, None)
    case Cancel(_, _, _) => KeepsRun(v, w) && after == s
    case Approve(_, _, _, request, decision) =>
      KeepsRun(v, w) && after == AppliedTo(h, s, ApprovalResolved(request, decision))
    case Answer(_, _, _, _, _) => KeepsRun(v, w) && after == s.(pendingQuestion := None)
  }

  lemma PromptBegins(h: Harness, v: HostSession, c: Command, files: seq<string>, marked: seq<Block>, env: Env,
                     plan: Option<string>) returns (at: seq<nat>)
    requires c.Send? || c.Compact?
    requires |marked| == |v.session.blocks|
    requires forall k: nat :: k < |marked| ==>
               Goes(v.session.blocks[k], marked[k], plan.Some? && IsFirstPlan(v.session.blocks, plan.value, k))
    ensures Begins(h, v, c, env, Prompted(h, v, c, files, marked, env), if c.Compact? then "/compact" else c.text, files,
                   at, plan)
  {
    var first := UndraftedAre(v.session.blocks);
    NoneIsLeft(v.session.blocks, first);
    at := UndraftedAre(marked);
    PromptIs(h, v, c, files, marked, env);
    hide WithoutDrafts, IsFirstPlan, Prompted, GoesOnWith, Goes, IsMessage, SameRow;
    var after := Prompted(h, v, c, files, marked, env).session.blocks;
    assert |at| == |WithoutDrafts(marked)|;
    MarkedRemain(v.session.blocks, marked, WithoutDrafts(marked), after, at, plan);
  }

  lemma PromptIs(h: Harness, v: HostSession, c: Command, files: seq<string>, marked: seq<Block>, env: Env)
    requires c.Send? || c.Compact?
    ensures var w, n, text := Prompted(h, v, c, files, marked, env), |WithoutDrafts(marked)|,
                              if c.Compact? then "/compact" else c.text;
            && w.status == Running && w.runId == Some(env.runId) && SameRow(v.(runId := w.runId), w)
            && w.session == v.session.(busy := true, pendingQuestion := None, title := w.session.title,
                                       blocks := w.session.blocks)
            && |w.session.blocks| == n + 1 && w.session.blocks[..n] == WithoutDrafts(marked)
            && IsMessage(w.session.blocks[n], c, text, false, files)
            && w.session.blocks[n].startedAt == Some(env.now) && w.session.blocks[n].turnModel == Some(v.session.model)
            && w.session.title ==
                 if c.Send? && WithoutDrafts(v.session.blocks) == []
                    && (v.session.title == "New remote session" || h.isPlaceholder(v.session.title, v.session.harness))
                 then h.title(text, v.session.harness, files) else v.session.title
  {
    hide WithoutDrafts;
  }

  lemma MarkedRemain(blocks: seq<Block>, marked: seq<Block>, kept: seq<Block>, after: seq<Block>, at: seq<nat>,
                     plan: Option<string>)
    requires |marked| == |blocks| && Picks(marked, kept, at) && |after| == |kept| + 1 && after[..|kept|] == kept
    requires forall k: nat :: k < |marked| ==> (k in at <==> !marked[k].draft)
    requires forall k: nat :: k < |marked| ==>
               Goes(blocks[k], marked[k], plan.Some? && IsFirstPlan(blocks, plan.value, k))
    ensures GoesOnWith(blocks, after, at, plan)
  {
    hide IsFirstPlan;
    forall i | 0 <= i < |at| ensures after[i] == marked[at[i]] { assert after[i] == after[..|kept|][i]; }
  }

  lemma NoneIsLeft(blocks: seq<Block>, at: seq<nat>)
    requires Picks(blocks, WithoutDrafts(blocks), at)
    requires forall k: nat :: k < |blocks| ==> (k in at <==> !blocks[k].draft)
    ensures WithoutDrafts(blocks) == [] <==> forall k :: 0 <= k < |blocks| ==> blocks[k].draft
  {
    hide WithoutDrafts;
    if at != [] { assert at[0] in at && !blocks[at[0]].draft; }
  }

  /** The plan a send approves, marked. */
  function Approved(blocks: seq<Block>, id: Option<string>): seq<Block> {
    var i := if id.Some? then FindPlan(blocks, id.value) else |blocks|;
    if i == |blocks| then blocks else blocks[i := blocks[i].(plan := Some(Plan(Building, Some(blocks[i].text))))]
  }

  lemma SentIs(h: Harness, v: HostSession, c: Command, env: Env) returns (files: seq<string>)
    requires c.Send? && Sent(h, v, c, env).Some?
    ensures FilesOf(h, v, c, files)
    ensures Sent(h, v, c, env) == Some(Prompted(h, v, c, files, Approved(v.session.blocks, c.planBlockId), env))
  {
    FilesAre(h, v, c, env);
    hide FilesOf, Prompted, FindDraft, FindPlan, ReadyToBuild;
    var blocks := v.session.blocks;
    var draft := if c.draftBlockId.Some? then FindDraft(blocks, c.draftBlockId.value) else None;
    files := if draft.Some? && draft.value.attachments != [] then draft.value.attachments
             else h.attachments(c.attachments).value;
  }

  lemma ApprovedGoes(blocks: seq<Block>, id: Option<string>)
    ensures var marked := Approved(blocks, id);
            |marked| == |blocks|
            && forall k: nat :: k < |blocks| ==> Goes(blocks[k], marked[k], id.Some? && IsFirstPlan(blocks, id.value, k))
  {
    if id.Some? { OnlyThatPlan(blocks, id.value); }
    hide FindPlan, IsFirstPlan;
  }

  lemma SendBegins(h: Harness, v: HostSession, c: Command, env: Env)
    requires c.Send? && Sent(h, v, c, env).Some?
    ensures Leaves(h, v, c, env, Sent(h, v, c, env).value)
  {
    hide Sent, Prompted, Approved, Goes, IsFirstPlan, FilesOf, Begins;
    var files := SentIs(h, v, c, env);
    ApprovedGoes(v.session.blocks, c.planBlockId);
    var at := PromptBegins(h, v, c, files, Approved(v.session.blocks, c.planBlockId), env, c.planBlockId);
  }

  lemma OnlyThatPlan(blocks: seq<Block>, id: string)
    ensures forall k: nat :: k < |blocks| ==> (IsFirstPlan(blocks, id, k) <==> k == FindPlan(blocks, id))
  {
    FindPlanIsFirst(blocks, id);
    var i := FindPlan(blocks, id);
    forall k: nat | k < |blocks| && IsFirstPlan(blocks, id, k) ensures k == i {
      if i < |blocks| { FirstPlanIsOne(blocks, id, i, k); }
    }
  }

  lemma DraftLeaves(h: Harness, v: HostSession, c: Command, env: Env)
    requires c.Draft? && Drafted(h, v, c).Some?
    ensures Leaves(h, v, c, env, Drafted(h, v, c).value)
  {
  }

  lemma RemovalLeaves(h: Harness, v: HostSession, c: Command, env: Env)
    requires c.RemoveDraft?
    ensures Leaves(h, v, c, env, v.(session := v.session.(blocks := WithoutId(v.session.blocks, c.removedBlockId))))
  {
    var at := OthersAre(v.session.blocks, c.removedBlockId);
    hide WithoutId, Picks;
  }

  lemma CommandLeaves(h: Harness, switching: set<string>, v: HostSession, c: Command, env: Env)
    requires !c.Create? && HostSteps.Commanded(h, switching, v, c, env).Some?
    ensures Leaves(h, v, c, env, HostSteps.Commanded(h, switching, v, c, env).value)
  {
    match c
    case Send(_, _, _, _, _, _, _) => SendBegins(h, v, c, env); hide Sent, Leaves;
    case Compact(_, _) =>
      hide Prompted, Begins;
      var at := PromptBegins(h, v, c, [], v.session.blocks, env, None);
    case RemoveDraft(_, _, _) => hide WithoutId, FindDraft, Leaves; RemovalLeaves(h, v, c, env);
    case Draft(_, _, _, _) => hide Drafted, Leaves; DraftLeaves(h, v, c, env);
    case _ => hide Sent, Prompted, Drafted;
  }

  // ------------------------------------------------------------- stored commands

  /** A new command that reaches the transaction, which storage lets through. */
  ghost predicate Reaches(e: Engine, c: Command, env: Env) {
    && !e.closing && c.commandId !in e.tables.receipts && !env.saveFails
    && (c.Create? || !FlushThrows(e, c.sessionId, env.flushFails))
  }

  /** The row an accepted command wrote, the receipt it is answered with, and the log. */
  ghost predicate StoredWith(e: Engine, id: string, w: HostSession, c: Command, r: Result<Receipt, Refusal>,
                             now: Time) {
    && id in e.tables.sessions && Core(e.tables.sessions[id]) == Core(w)
    && r == Ok(Receipt(c.commandId, id, e.tables.sessions[id].revision))
    && c.commandId in e.tables.receipts && e.tables.receipts[c.commandId] == HostStores.Entry(c, r.value)
    && LoggedLast(e, id, HostSessions.Commanded(c), now)
  }

  lemma WriteStores(e: Engine, input: HostSession, record: Record)
    ensures var e' := Written(e, input, record);
            LoggedLast(e', input.session.id, record, input.updatedAt)
            && e'.tables.sessions[input.session.id].revision == input.revision
            && e'.tables.receipts == e.tables.receipts
  {
    hide Stamps;
  }

  lemma CommitStores(e: Engine, c: Command, v: HostSession, env: Env)
    requires c.Create? ==> v.updatedAt == env.now
    ensures StoredWith(Committed(e, c, v, env), v.session.id, v, c, Ok(ReceiptOf(c, v)), env.now)
  {
    var id, input, record := v.session.id, InputOf(c, v, env), HostSessions.Commanded(c);
    CommittedIs(e, c, v, env);
    var first := WithReceipt(NewIds(e, env), c, v);
    assert first.tables.receipts == e.tables.receipts[c.commandId := HostStores.Entry(c, ReceiptOf(c, v))];
    assert input.session.id == id && input.revision == v.revision + 1 && input.updatedAt == env.now && Core(input) == Core(v);
    hide Committed, InputOf, WithReceipt, NewIds, Written, Core;
    WriteStores(first, input, record);
    WrittenCore(first, input, record);
    RefreshKeepsTables(Written(first, input, record), id);
    EffectKeepsTables(Refreshed(Written(first, input, record), id), c, id, env);
    hide Refreshed, Effect;
  }

  lemma EffectKeepsTables(e: Engine, c: Command, id: string, env: Env)
    requires id in e.tables.sessions
    ensures Effect(e, c, id, env).tables == e.tables
  {
  }

  /** In every run, a new command is accepted if and only if it fits its session with all
      that was streamed, and then leaves in the stored session exactly what it says. */
  lemma CommandsAreStored(h: Harness, states: seq<Engine>, ops: seq<Op>, envs: seq<Env>, i: nat, c: Command)
    requires Lawful(h) && Run(h, states, ops, envs) && Inv(h, states[0]) && i < |ops|
    requires ops[i] == Issue(c) && !c.Create? && Reaches(states[i], c, envs[i])
    ensures var e, e', env, id := states[i], states[i + 1], envs[i], c.sessionId;
            var answer := Issued(h, e, c, env).1;
            && (answer.Ok? <==> id in e.tables.sessions && Fits(h, e.switching, Effective(e, id), c))
            && (answer.Ok? ==> exists w :: Leaves(h, Effective(e, id), c, env, w) && StoredWith(e', id, w, c, answer, env.now))
  {
    InvHolds(h, states, ops, envs, i);
    assert Step(h, states[i], ops[i], envs[i], states[i + 1]);
    hide Inv, Lawful, Run, Step, Issued, Fits, Leaves, Effective, StoredWith;
    CommandIsStored(h, states[i], c, envs[i]);
    StepOfIssue(h, states[i], c, envs[i], states[i + 1]);
  }

  lemma StepOfIssue(h: Harness, e: Engine, c: Command, env: Env, e': Engine)
    requires Step(h, e, Issue(c), env, e')
    ensures e' == Issued(h, e, c, env).0
  {
    hide Issued;
  }

  lemma CommandIsStored(h: Harness, e: Engine, c: Command, env: Env)
    requires Lawful(h) && Inv(h, e) && !c.Create? && Reaches(e, c, env)
    ensures var (e', answer), id := Issued(h, e, c, env), c.sessionId;
            && (answer.Ok? <==> id in e.tables.sessions && Fits(h, e.switching, Effective(e, id), c))
            && (answer.Ok? ==> exists w :: Leaves(h, Effective(e, id), c, env, w) && StoredWith(e', id, w, c, answer, env.now))
  {
    var id := c.sessionId;
    IssuedIs(h, e, c, env);
    OutcomeOfCore(h, e, c, env);
    var flushed := Flushed(e, id, env.now, env.flushFails);
    var value := Outcome(h, flushed, c, env);
    hide Inv, Lawful, Flushed, FlushThrows, Issued, Outcome, HostSteps.Commanded, Fits, Leaves, StoredWith, Committed;
    hide Core, Effective;
    if id in e.tables.sessions {
      CommandFits(h, e.switching, Effective(e, id), c, env);
      if value.Some? {
        CommandLeaves(h, e.switching, Effective(e, id), c, env);
        var w := HostSteps.Commanded(h, e.switching, Effective(e, id), c, env).value;
        CommitStores(flushed, c, value.value, env);
        StoredAlike(Committed(flushed, c, value.value, env), id, value.value, w, c, Ok(ReceiptOf(c, value.value)), env.now);
      }
    }
  }

  lemma StoredAlike(e: Engine, id: string, v: HostSession, w: HostSession, c: Command, r: Result<Receipt, Refusal>,
                    now: Time)
    requires StoredWith(e, id, v, c, r, now) && Core(v) == Core(w)
    ensures StoredWith(e, id, w, c, r, now)
  {
    hide Core;
  }

  /** A new session is made where its project and its provider are there and no branch is
      being switched, empty and idle, in the worktree it names. */
  lemma CreationsAreStored(h: Harness, states: seq<Engine>, ops: seq<Op>, envs: seq<Env>, i: nat, c: Command)
    requires Lawful(h) && Run(h, states, ops, envs) && Inv(h, states[0]) && i < |ops|
    requires ops[i] == Issue(c) && c.Create? && Reaches(states[i], c, envs[i])
    ensures var e, e', env := states[i], states[i + 1], envs[i];
            var answer := Issued(h, e, c, env).1;
            && (answer.Ok? <==>
                  && c.projectId in e.projects && c.projectId !in e.switching && h.available(c.harness)
                  && h.worktree(e.projects[c.projectId], c.worktreeCwd).Some?)
            && (answer.Ok? ==>
                  && env.newId !in e.tables.sessions && env.newId in e'.tables.sessions
                  && var w := e'.tables.sessions[env.newId];
                     && w.status == Idle && w.runId.None? && w.projectId == c.projectId && !w.archived && !w.pinned
                     && w.autoWorktreeBranch == c.autoWorktreeBranch
                     && w.session.id == env.newId && w.session.blocks == [] && w.session.title == "New remote session"
                     && Some(w.session.cwd) == h.worktree(e.projects[c.projectId], c.worktreeCwd)
                     && w.session.harness == c.harness && w.session.model == c.model
                     && w.session.modelSettings == c.modelSettings && w.session.runtimeMode == c.runtimeMode
                     && w.session.branch == c.autoWorktreeBranch && !w.session.busy
                     && StoredWith(e', env.newId, w, c, answer, env.now))
  {
    InvHolds(h, states, ops, envs, i);
    var e, env := states[i], envs[i];
    assert Step(h, e, ops[i], env, states[i + 1]) && Fair(e, ops[i], env);
    SessionsOkAt(h, e, env.newId);
    hide Inv, Lawful, Run;
    var value := Created(h, e.projects, e.switching, c, env);
    if value.Some? {
      hide Committed, StoredWith;
      CommitStores(e, c, value.value, env);
      CreatedRow(Committed(e, c, value.value, env), value.value, c, Ok(ReceiptOf(c, value.value)), env.now);
    }
  }

  lemma CreatedRow(e: Engine, v: HostSession, c: Command, r: Result<Receipt, Refusal>, now: Time)
    requires StoredWith(e, v.session.id, v, c, r, now)
    ensures v.session.id in e.tables.sessions
    ensures var w := e.tables.sessions[v.session.id];
            && w.session == v.session && w.status == v.status && SameRow(v, w)
            && StoredWith(e, v.session.id, w, c, r, now)
  {
    SameParts(e.tables.sessions[v.session.id], v);
  }

  // -------------------------------------------------------------------- edits

  predicate IsSpace(c: char) { c in {' ', '\t', '\n', '\r'} }

  /** `t` is what lies between the blanks around `s`. */
  ghost predicate TrimsTo(s: string, t: string) {
    && (exists i, j :: 0 <= i <= j <= |s| && t == s[i..j]
                       && (forall k :: 0 <= k < i ==> IsSpace(s[k])) && (forall k :: j <= k < |s| ==> IsSpace(s[k])))
    && (t != "" ==> !IsSpace(t[0]) && !IsSpace(t[|t| - 1]))
  }

  lemma {:induction false} TrimStartIs(s: string) returns (i: nat)
    ensures i <= |s| && TrimStart(s) == s[i..] && forall k :: 0 <= k < i ==> IsSpace(s[k])
    ensures TrimStart(s) != "" ==> !IsSpace(TrimStart(s)[0])
    decreases |s|
  {
    i := 0;
    if s != "" && IsSpace(s[0]) {
      i := TrimStartIs(s[1..]);
      i := i + 1;
    }
  }

  lemma ReverseAt(s: string)
    ensures |Reverse(s)| == |s| && forall k :: 0 <= k < |s| ==> Reverse(s)[k] == s[|s| - 1 - k]
  {
  }

  lemma ReversedTail(t: string, m: nat)
    requires m <= |t|
    ensures Reverse(Reverse(t)[m..]) == t[..|t| - m]
  {
    ReverseAt(t);
    ReverseAt(Reverse(t)[m..]);
    hide Reverse;
  }

  lemma TrimTrims(s: string)
    ensures TrimsTo(s, Trim(s))
  {
    var i := TrimStartIs(s);
    var t := s[i..];
    var m := TrimStartIs(Reverse(t));
    ReverseAt(t);
    ReversedTail(t, m);
    hide Reverse, TrimStart, IsSpace;
    var j := |s| - m;
    assert Trim(s) == t[..|t| - m] == s[i..j];
    forall k | j <= k < |s| ensures IsSpace(s[k]) {
      assert s[k] == t[k - i] == Reverse(t)[|t| - 1 - (k - i)];
    }
    if i < j {
      assert s[i..j][0] == t[0];
      assert s[i..j][j - i - 1] == Reverse(t)[m];
    }
  }

  /** An edit sets the fields it names, a title without the blanks around it, and no other. */
  ghost predicate Edits(v: HostSession, patch: Patch, w: HostSession) {
    && w == v.(revision := w.revision, createdAt := w.createdAt, updatedAt := w.updatedAt, blockRevisions := w.blockRevisions,
               archived := w.archived, pinned := w.pinned, session := w.session)
    && w.session == v.session.(title := w.session.title, linkedWorkItem := w.session.linkedWorkItem)
    && w.archived == (if patch.archived.Some? then patch.archived.value else v.archived)
    && w.pinned == (if patch.pinned.Some? then patch.pinned.value else v.pinned)
    && w.session.linkedWorkItem
       == (if patch.linkedWorkItem.Some? then patch.linkedWorkItem.value else v.session.linkedWorkItem)
    && (if patch.title.Some? then TrimsTo(patch.title.value, w.session.title) else w.session.title == v.session.title)
  }

  lemma PatchEdits(v: HostSession, patch: Patch, w: HostSession)
    requires Core(w) == Core(Patched(v, patch))
    ensures Edits(v, patch, w)
  {
    if patch.title.Some? { TrimTrims(patch.title.value); }
    hide Trim, TrimsTo;
    SameParts(w, Patched(v, patch));
  }

  /** In every run, an edit is made if and only if the session is there, a title it names is
      not blank or too long, and storage works; then on everything streamed so far. */
  lemma EditsAreStored(h: Harness, states: seq<Engine>, ops: seq<Op>, envs: seq<Env>, i: nat, id: string, patch: Patch)
    requires Lawful(h) && Run(h, states, ops, envs) && Inv(h, states[0]) && i < |ops| && ops[i] == Op.Update(id, patch)
    ensures var e, e', env := states[i], states[i + 1], envs[i];
            var made := && id in e.tables.sessions && !env.saveFails && !FlushThrows(e, id, env.flushFails)
                        && (patch.title.Some? ==> HasText(patch.title.value) && |patch.title.value| <= 200);
            if made then
              && id in e'.tables.sessions && Edits(Effective(e, id), patch, Effective(e', id))
              && LoggedLast(e', id, Metadata(patch),
                            if id in e.live && e.live[id].events != [] then env.now else e.tables.sessions[id].updatedAt)
            else Alike(e, e', id)
  {
    InvHolds(h, states, ops, envs, i);
    var e, e', env := states[i], states[i + 1], envs[i];
    assert Step(h, e, ops[i], env, e');
    if patch.title.Some? { HasTextIff(patch.title.value); }
    hide Inv, Lawful, Run, Flushed, FlushThrows, Effective, Alike, Edits, HasText, IsBlank, Patched, Edited;
    PatchingOfCore(patch);
    EditsSeeEveryEvent(h, e, id, Patching(patch), Metadata(patch), env, id);
    if ValidPatch(patch) && id in e.tables.sessions && id in e'.tables.sessions
       && Core(Effective(e', id)) == Core(Patched(Effective(e, id), patch))
    {
      PatchEdits(Effective(e, id), patch, Effective(e', id));
    }
    hide LoggedLast, Step, FlushedEdit;
    if ValidPatch(patch) && id in e.tables.sessions && !env.saveFails && !FlushThrows(e, id, env.flushFails) {
      MadeEditIsLogged(h, e, id, Patching(patch), Metadata(patch), env);
      PatchKeepsTime(Flushed(e, id, env.now, env.flushFails).tables.sessions[id], patch);
    }
  }

  /** An edit is logged, and leaves the time it gives, on the row as it was last saved. */
  lemma MadeEditIsLogged(h: Harness, e: Engine, id: string, edit: HostSession -> Option<HostSession>, record: Record, env: Env)
    requires Lawful(h) && Inv(h, e) && id in e.tables.sessions && !env.saveFails && !FlushThrows(e, id, env.flushFails)
    requires OfCore(edit) && edit(Effective(e, id)).Some?
    ensures var flushed := Flushed(e, id, env.now, env.flushFails);
            && id in flushed.tables.sessions && edit(flushed.tables.sessions[id]).Some?
            && flushed.tables.sessions[id].updatedAt == LastSave(e, id, env.now)
            && LoggedLast(FlushedEdit(e, id, edit, record, env), id, record, edit(flushed.tables.sessions[id]).value.updatedAt)
  {
    hide Inv, Lawful, Flushed, Core, LoggedLast, Quiet, Written, Effective;
    FlushKeeps(h, e, id, env.now, env.flushFails);
    FlushedTime(h, e, id, env.now);
    SameFlush(e, id, env.now, env.flushFails);
    var flushed := Flushed(e, id, env.now, env.flushFails);
    StoredFacts(h, flushed, id);
    assert edit(flushed.tables.sessions[id]).Some? <==> edit(Effective(e, id)).Some?;
    var input := edit(flushed.tables.sessions[id]).value;
    WriteStores(flushed, input, record);
    RefreshKeepsTables(Written(flushed, input, record), id);
    hide Refreshed;
    SameLog(Written(flushed, input, record), Refreshed(Written(flushed, input, record), id), id, record, input.updatedAt);
  }

  lemma PatchKeepsTime(v: HostSession, patch: Patch)
    ensures Patched(v, patch).updatedAt == v.updatedAt
  {
    hide Trim;
  }

  /** A generated title is stored if the session still has the title it had. */
  lemma TitlesAreStored(h: Harness, states: seq<Engine>, ops: seq<Op>, envs: seq<Env>, i: nat, id: string)
    requires Lawful(h) && Run(h, states, ops, envs) && Inv(h, states[0]) && i < |ops|
    requires ops[i].NameTitle? && ops[i].sessionId == id
    ensures var e, e', env, op := states[i], states[i + 1], envs[i], ops[i];
            if id in e.tables.sessions && !env.saveFails && !FlushThrows(e, id, env.flushFails)
               && Effective(e, id).session.title == op.expected
            then
              var v := Effective(e, id);
              && id in e'.tables.sessions && Core(Effective(e', id)) == Core(v.(session := v.session.(title := op.title)))
              && LoggedLast(e', id, GeneratedTitle, env.now)
            else Alike(e, e', id)
  {
    InvHolds(h, states, ops, envs, i);
    var e, e', env, expected, title := states[i], states[i + 1], envs[i], ops[i].expected, ops[i].title;
    assert Step(h, e, ops[i], env, e');
    hide Inv, Lawful, Run, Flushed, FlushThrows, Effective, Alike, Edited, Core, OfCore, NewTitle;
    TitlingOfCore(expected, title, env);
    EditsSeeEveryEvent(h, e, id, Titling(expected, title, env), GeneratedTitle, env, id);
    if id in e.tables.sessions { NewNamesAre(Effective(e, id), expected, title, "", env); }
    hide LoggedLast, Step, FlushedEdit;
    if id in e.tables.sessions && !env.saveFails && !FlushThrows(e, id, env.flushFails)
       && Effective(e, id).session.title == expected
    {
      MadeEditIsLogged(h, e, id, Titling(expected, title, env), GeneratedTitle, env);
      NewNamesAre(Flushed(e, id, env.now, env.flushFails).tables.sessions[id], expected, title, "", env);
    }
  }

  /** A generated branch name takes the place of the temporary one. */
  lemma BranchesAreStored(h: Harness, states: seq<Engine>, ops: seq<Op>, envs: seq<Env>, i: nat, id: string)
    requires Lawful(h) && Run(h, states, ops, envs) && Inv(h, states[0]) && i < |ops|
    requires ops[i].NameBranch? && ops[i].sessionId == id
    ensures var e, e', env, branch := states[i], states[i + 1], envs[i], ops[i].branch;
            if id in e.tables.sessions && !env.saveFails && !FlushThrows(e, id, env.flushFails) then
              var v := Effective(e, id);
              && id in e'.tables.sessions
              && Core(Effective(e', id))
                 == Core(v.(autoWorktreeBranch := None, session := v.session.(branch := Some(branch))))
              && LoggedLast(e', id, GeneratedBranch(branch), env.now)
            else Alike(e, e', id)
  {
    InvHolds(h, states, ops, envs, i);
    var e, e', env, branch := states[i], states[i + 1], envs[i], ops[i].branch;
    assert Step(h, e, ops[i], env, e');
    hide Inv, Lawful, Run, Flushed, FlushThrows, Effective, Alike, Edited, Core, OfCore, NewBranch;
    BranchingOfCore(branch, env);
    EditsSeeEveryEvent(h, e, id, Branching(branch, env), GeneratedBranch(branch), env, id);
    if id in e.tables.sessions { NewNamesAre(Effective(e, id), "", "", branch, env); }
    hide LoggedLast, Step, FlushedEdit;
    if id in e.tables.sessions && !env.saveFails && !FlushThrows(e, id, env.flushFails) {
      MadeEditIsLogged(h, e, id, Branching(branch, env), GeneratedBranch(branch), env);
      NewNamesAre(Flushed(e, id, env.now, env.flushFails).tables.sessions[id], "", "", branch, env);
    }
  }

  lemma NewNamesAre(v: HostSession, expected: string, title: string, branch: string, env: Env)
    ensures NewTitle(v, expected, title, env).Some? <==> v.session.title == expected
    ensures NewTitle(v, expected, title, env).Some? ==>
              && Core(NewTitle(v, expected, title, env).value) == Core(v.(session := v.session.(title := title)))
              && NewTitle(v, expected, title, env).value.updatedAt == env.now
    ensures NewBranch(v, branch, env).updatedAt == env.now
    ensures Core(NewBranch(v, branch, env))
            == Core(v.(autoWorktreeBranch := None, session := v.session.(branch := Some(branch))))
  {
  }

  // ---------------------------------------------------------------- summaries

  /** What a summary shows of the row it is of: its place, run, times and names, whether it
      waits for its user, and whether a message is being written. */
  lemma SummariesShow(v: HostSession)
    ensures var s, blocks := SummaryOf(v), v.session.blocks;
            && s.id == v.session.id && s.projectId == v.projectId && s.revision == v.revision && s.runId == v.runId
            && s.status == v.status && s.updatedAt == v.updatedAt && s.cwd == v.session.cwd && s.title == v.session.title
            && s.harness == v.session.harness && s.model == v.session.model && s.runtimeMode == v.session.runtimeMode
            && s.providerSessionId == Some(v.session.providerSessionId) && s.archived == v.archived && s.pinned == v.pinned
            && s.linkedWorkItem == v.session.linkedWorkItem
            && Some(s.createdAt) == (if v.createdAt.Some? then v.createdAt else Some(v.updatedAt))
            && s.needsInput.Some?
            && (s.needsInput.value <==>
                  && !v.session.worktreeRemoved
                  && (|| v.session.pendingQuestion.Some?
                      || exists i :: 0 <= i < |blocks| && blocks[i].approval.Some? && blocks[i].approval.value.decided.None?))
            && (s.draft <==> exists i :: 0 <= i < |blocks| && blocks[i].role == User && blocks[i].draft)
  {
    var blocks := v.session.blocks;
    if i :| 0 <= i < |blocks| && blocks[i].role == User && blocks[i].draft { assert IsUserDraft(blocks[i]); }
  }
}
