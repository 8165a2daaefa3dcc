/** What the rows of `src-tauri/src/automations.rs` say after a claim, a report or a restart,
    field by field, and how the times of a run go together over every sequence of operations. */
module AutomationResults {
  import opened Wrappers
  import opened Automations
  import opened AutomationRuns

  // ------------------------------------------------------------------- claims

  /** A new run is stored whatever is trimmed, and beside its automation. */
  lemma NewRunStays(db: Db, id: string, a: Automation, run: Run)
    requires id in db.rows && run.automation == id && IsLater(db, id, run.id, run.createdAt)
    ensures var s := Started(db, id, a, run);
            && run.id in s.runs && s.runs[run.id] == run
            && id in s.rows && s.rows[id].def.plan == a.plan && Shows(s.rows[id].def, run)
            && s.rows[id].def.createdAt == a.createdAt && s.rows[id].def.lastSessionId == a.lastSessionId
  {
    var s := Shown(db, id, a, run);
    assert IsNewest(s, id, run.id);
    NewestIsKept(s, id, run.id);
    hide Kept;
  }

  /** A run nobody has touched since it was made. */
  predicate IsFresh(run: Run, automation: string, now: Time, prompt: string) {
    && run.automation == automation && run.createdAt == now && run.prompt == Some(prompt)
    && run.startedAt.None? && run.sessionId.None?
  }

  predicate IsPending(run: Run) { run.status == Pending && run.completedAt.None? && run.error.None? }

  predicate Missed(run: Run, now: Time) {
    run.status == Skipped && run.completedAt == Some(now)
    && run.error == Some("Missed the scheduled run beyond its grace period.")
  }

  /** In every run, a scheduled claim stores a run of that occurrence: to be dispatched if it
      is not later than the grace period allows, and skipped at once otherwise. The summary
      shows it, and the plan moves to the next occurrence. */
  lemma ScheduledRunIsStored(states: seq<Db>, trace: seq<Moment>, i: nat, id: string)
    requires Behaviour(states, trace) && Later(states, trace) && Inv(states[0])
    requires i < |trace| && ClaimsAt(states, trace, i, id)
    ensures var op, now, s := trace[i].op, trace[i].now, states[i + 1];
            && id in states[i].rows && op.runId in s.runs && id in s.rows
            && var plan, run := states[i].rows[id].def.plan, s.runs[op.runId];
               && IsFresh(run, id, now, plan.prompt) && run.cause == Scheduled && run.scheduledFor == op.expected
               && run.eventKey.None?
               && (IsPending(run) <==> now <= op.expected + plan.graceMinutes * 60_000)
               && (Missed(run, now) <==> now > op.expected + plan.graceMinutes * 60_000)
               && Shows(s.rows[id].def, run) && s.rows[id].def.plan == plan.(nextRunAt := op.next)
               && ColumnsAgree(s)
  {
    InvHoldsThroughout(states, trace, i);
    var op, now, db := trace[i].op, trace[i].now, states[i];
    assert Step(db, op, now, states[i + 1]) && CreatesLater(db, op, now);
    var a := db.rows[id].def;
    NewRunStays(db, id, a.(plan := a.plan.(nextRunAt := op.next)), DueRun(db, id, op.expected, now, op.runId));
    hide Inv, Started, ColumnsAgree;
    InvHoldsThroughout(states, trace, i + 1);
    ColumnsOfInv(states[i + 1]);
  }

  lemma ColumnsOfInv(db: Db)
    requires Inv(db)
    ensures ColumnsAgree(db)
  {
  }

  /** When a scheduled occurrence is claimed: the automation is on, has a time to run at, and
      stands at that occurrence, which is due and followed by a later one. */
  lemma OccurrenceIsClaimedIff(db: Db, op: Op, now: Time, db': Db)
    requires Inv(db) && Step(db, op, now, db') && CreatesLater(db, op, now) && op.ClaimDue?
    ensures op.runId in db'.runs <==>
              && op.id in db.rows
              && var plan := db.rows[op.id].def.plan;
                 && plan.enabled && plan.nextRunAt == op.expected && op.expected <= now && op.expected < op.next
                 && exists k :: 0 <= k < |plan.triggers| && plan.triggers[k].kind == "time"
    ensures op.runId !in db'.runs ==> db' == db
  {
    if op.id in db.rows {
      var a := db.rows[op.id].def;
      TimeTriggerIff(a);
      hide HasTimeTrigger;
      if IsDue(db, op.id, op.expected, op.next, now) {
        NewRunStays(db, op.id, a.(plan := a.plan.(nextRunAt := op.next)), DueRun(db, op.id, op.expected, now, op.runId));
      }
    }
    hide Started, DueRun;
  }

  lemma TimeTriggerIff(a: Automation)
    ensures HasTimeTrigger(a) <==> exists k :: 0 <= k < |a.plan.triggers| && a.plan.triggers[k].kind == "time"
  {
    if HasTimeTrigger(a) {
      var t :| t in a.plan.triggers && t.kind == "time";
      var k :| 0 <= k < |a.plan.triggers| && a.plan.triggers[k] == t;
    }
    if k :| 0 <= k < |a.plan.triggers| && a.plan.triggers[k].kind == "time" {
      assert a.plan.triggers[k] in a.plan.triggers;
    }
  }

  predicate IsPlainChar(c: char) {
    'a' <= c <= 'z' || 'A' <= c <= 'Z' || '0' <= c <= '9' || c == '-' || c == '_' || c == ':' || c == '/' || c == '.'
  }

  /** When an event is claimed: it is well-formed, the automation is on and waits for it, and
      its key was never claimed. */
  lemma EventIsClaimedIff(db: Db, op: Op, now: Time, db': Db)
    requires Inv(db) && Step(db, op, now, db') && CreatesLater(db, op, now) && op.ClaimEvent?
    ensures op.runId in db'.runs <==>
              && op.id in db.rows && (op.id, op.key) !in db.claims
              && 1 <= |op.key| <= 400 && (forall k :: 0 <= k < |op.key| ==> IsPlainChar(op.key[k]))
              && 1 <= |op.event| <= 200 && |op.prompt| <= 1_010_000
              && (exists k :: 0 <= k < |op.prompt| && op.prompt[k] !in {' ', '\t', '\n', '\r'})
              && (op.kind == "github" || op.kind == "linear" || op.kind == "jira" || op.kind == "gitlab"
                  || op.kind == "azuredevops")
              && var plan := db.rows[op.id].def.plan;
                 && plan.enabled
                 && exists k :: 0 <= k < |plan.triggers| && plan.triggers[k].kind == op.kind && plan.triggers[k].event == op.event
    ensures op.runId !in db'.runs ==> db' == db
  {
    PlainKeyIff(op.key);
    HasTextIff(op.prompt);
    if op.id in db.rows {
      EventTriggerIff(db.rows[op.id].def, op.kind, op.event);
      hide HasEventTrigger, ValidEventKey, IsBlank;
      if IsNewEvent(db, op.id, op.key, op.kind, op.event, op.prompt) {
        NewRunStays(db.(claims := db.claims + {(op.id, op.key)}), op.id, db.rows[op.id].def,
                    EventRun(op.id, op.key, op.kind, op.event, op.scheduledFor, op.prompt, now, op.runId));
      }
    }
    hide Started, EventRun;
  }

  lemma PlainKeyIff(key: string)
    ensures ValidEventKey(key) <==> 1 <= |key| <= 400 && forall k :: 0 <= k < |key| ==> IsPlainChar(key[k])
  {
    if ValidEventKey(key) {
      forall k | 0 <= k < |key| ensures IsPlainChar(key[k]) { assert key[k] in key; }
    }
  }

  lemma HasTextIff(s: string)
    ensures !IsBlank(s) <==> exists k :: 0 <= k < |s| && s[k] !in {' ', '\t', '\n', '\r'}
  {
    if !IsBlank(s) {
      var c :| c in s && c !in {' ', '\t', '\n', '\r'};
      var k :| 0 <= k < |s| && s[k] == c;
    }
    if k :| 0 <= k < |s| && s[k] !in {' ', '\t', '\n', '\r'} { assert s[k] in s; }
  }

  lemma EventTriggerIff(a: Automation, kind: string, event: string)
    ensures HasEventTrigger(a, kind, event) <==>
              exists k :: 0 <= k < |a.plan.triggers| && a.plan.triggers[k].kind == kind && a.plan.triggers[k].event == event
  {
    if HasEventTrigger(a, kind, event) {
      var t :| t in a.plan.triggers && t.kind == kind && t.event == event;
      var k :| 0 <= k < |a.plan.triggers| && a.plan.triggers[k] == t;
    }
    if k :| 0 <= k < |a.plan.triggers| && a.plan.triggers[k].kind == kind && a.plan.triggers[k].event == event {
      assert a.plan.triggers[k] in a.plan.triggers;
    }
  }

  /** So does an event, for the time it names if it names one. */
  lemma EventRunIsStored(states: seq<Db>, trace: seq<Moment>, i: nat, id: string, key: string)
    requires Behaviour(states, trace) && Later(states, trace) && Inv(states[0])
    requires i < |trace| && ClaimsEventAt(states, trace, i, id, key)
    ensures var op, now, s := trace[i].op, trace[i].now, states[i + 1];
            && id in states[i].rows && op.runId in s.runs && id in s.rows && (id, key) in s.claims
            && var run := s.runs[op.runId];
               && IsFresh(run, id, now, op.prompt) && IsPending(run) && run.cause == Event
               && run.scheduledFor == (if op.scheduledFor > 0 then op.scheduledFor else now)
               && run.eventKey == Some(key) && run.eventKind == op.kind && run.event == op.event
               && Shows(s.rows[id].def, run) && s.rows[id].def.plan == states[i].rows[id].def.plan
  {
    InvHoldsThroughout(states, trace, i);
    var op, now, db := trace[i].op, trace[i].now, states[i];
    assert Step(db, op, now, states[i + 1]) && CreatesLater(db, op, now);
    NewRunStays(db.(claims := db.claims + {(id, key)}), id, db.rows[id].def,
                EventRun(id, key, op.kind, op.event, op.scheduledFor, op.prompt, now, op.runId));
    hide Inv, Kept;
  }

  /** And a run started by hand. */
  lemma ManualRunIsStored(states: seq<Db>, trace: seq<Moment>, i: nat, id: string)
    requires Behaviour(states, trace) && Later(states, trace) && Inv(states[0])
    requires i < |trace| && trace[i].op.RunNow? && trace[i].op.id == id && id in states[i].rows
    ensures var now, s := trace[i].now, states[i + 1];
            && trace[i].op.runId in s.runs && id in s.rows
            && var run := s.runs[trace[i].op.runId];
               && IsFresh(run, id, now, states[i].rows[id].def.plan.prompt) && IsPending(run) && run.cause == Manual
               && run.scheduledFor == now && run.eventKey.None?
               && Shows(s.rows[id].def, run) && s.rows[id].def.plan == states[i].rows[id].def.plan
  {
    InvHoldsThroughout(states, trace, i);
    var op, now, db := trace[i].op, trace[i].now, states[i];
    assert Step(db, op, now, states[i + 1]) && CreatesLater(db, op, now);
    NewRunStays(db, id, db.rows[id].def, NewRun(op.runId, id, Manual, now, now, db.rows[id].def.plan.prompt));
    hide Inv, Started;
  }

  // ------------------------------------------------------------------ reports

  /** What a report leaves of a run. */
  ghost predicate SameRequest(x: Run, y: Run) {
    && SameIdentity(x, y) && x.cause == y.cause && x.scheduledFor == y.scheduledFor && x.prompt == y.prompt
    && x.eventKind == y.eventKind && x.event == y.event
  }

  /** A report stores what it says of the run, unless the run was due to leave the history:
      it starts once, ends when it ends, keeps its session, and drops a blank error. */
  lemma ReportIsStored(db: Db, op: Op, now: Time, db': Db)
    requires Inv(db) && Step(db, op, now, db') && op.UpdateRun? && op.runId in db.runs
    requires !Terminal(op.status) || IsNewest(db, db.runs[op.runId].automation, op.runId)
    ensures op.runId in db'.runs
    ensures var was, run := db.runs[op.runId], db'.runs[op.runId];
            && SameRequest(was, run) && run.status == op.status
            && run.startedAt == (if was.startedAt.None? && op.status == Running then Some(now) else was.startedAt)
            && run.completedAt == (if op.status == Pending || op.status == Running then was.completedAt else Some(now))
            && run.sessionId == (if op.sessionId.None? then was.sessionId else op.sessionId)
            && (run.error.Some? <==> op.error.Some? && !IsBlank(op.error.value))
            && (run.error.Some? ==> run.error == op.error)
  {
    KeyedRun(db, op.runId);
    var run := UpdatedRun(db.runs[op.runId], op.status, op.sessionId, op.error, now);
    var s := Reported(db, run);
    if Terminal(op.status) {
      assert IsNewest(s, run.automation, op.runId);
      NewestIsKept(s, run.automation, op.runId);
    }
    hide ApplyRunSummary, NewerThan, RunsOf;
  }

  /** A session of a run reaches the automation, which the next run may use again. */
  lemma SessionIsRemembered(db: Db, op: Op, now: Time, db': Db)
    requires Inv(db) && Step(db, op, now, db') && op.UpdateRun? && op.runId in db.runs
    ensures var id := db.runs[op.runId].automation;
            && id in db.rows && id in db'.rows
            && db'.rows[id].def.lastSessionId
               == if IsNewest(db, id, op.runId) && (op.sessionId.Some? || db.runs[op.runId].sessionId.Some?)
                  then (if op.sessionId.Some? then op.sessionId else db.runs[op.runId].sessionId)
                  else db.rows[id].def.lastSessionId
  {
    var id := db.runs[op.runId].automation;
    KeyedRun(db, op.runId);
    assert MirrorOf(db, id);
    var newest :| IsNewest(db, id, newest) && Shows(db.rows[id].def, db.runs[newest]);
    assert db.runs[op.runId].createdAt >= db.runs[newest].createdAt <==> op.runId == newest;
    hide Consistent, Mirror, Kept;
  }

  // ------------------------------------------------------------------ restarts

  /** What a restart makes of one listed run: one that ran is cancelled, one that waited for
      a prompt which is gone has failed, and any other stays as it is. */
  ghost predicate IsRecovered(was: Run, run: Run, now: Time) {
    var lost := was.status == Pending && was.cause == Event && (was.prompt.None? || IsBlank(was.prompt.value));
    if was.status == Running || lost then
      && SameRequest(was, run) && run.startedAt == was.startedAt && run.sessionId == was.sessionId
      && run.completedAt == Some(now) && run.status == (if lost then Failed else Cancelled)
      && run.error == Some(if lost then "The Inbox event prompt was not available after restart."
                           else "Interrupted when MonoCode last stopped.")
    else run == was
  }

  lemma RecoveredIs(was: Run, now: Time)
    ensures IsRecovered(was, Recovered(was, now), now)
  {
  }

  lemma {:induction false} RecoverAllAt(db: Db, ordered: seq<Run>, now: Time, id: RunId)
    requires WellKeyed(db) && Unvisited(db, ordered) && id in db.runs
    ensures var s := RecoverAll(db, ordered, now);
            && id in s.runs && WellKeyed(s)
            && if db.runs[id] in ordered then IsRecovered(db.runs[id], s.runs[id], now) else s.runs[id] == db.runs[id]
    decreases |ordered|
  {
    hide IsRecovered;
    if ordered != [] {
      var first := ordered[0];
      RecoveredIs(first, now);
      RecoverOneAt(db, ordered, now, id);
      RecoverAllAt(RecoverOne(db, first, now), ordered[1..], now, id);
      assert db.runs[id] in ordered <==> db.runs[id] == first || db.runs[id] in ordered[1..];
      FirstIsOnce(db, ordered, now, id);
    }
  }

  lemma RecoverOneAt(db: Db, ordered: seq<Run>, now: Time, id: RunId)
    requires WellKeyed(db) && Unvisited(db, ordered) && ordered != [] && id in db.runs
    ensures var s := RecoverOne(db, ordered[0], now);
            && WellKeyed(s) && Unvisited(s, ordered[1..]) && id in s.runs
            && s.runs[id] == if id == ordered[0].id then Recovered(ordered[0], now) else db.runs[id]
  {
    var first := ordered[0];
    RecoveredIs(first, now);
    hide Recovered, ApplyRunSummary;
    var s := RecoverOne(db, first, now);
    assert forall i :: 1 <= i < |ordered| ==> ordered[i].id != first.id;
  }

  lemma FirstIsOnce(db: Db, ordered: seq<Run>, now: Time, id: RunId)
    requires WellKeyed(db) && Unvisited(db, ordered) && ordered != [] && id in db.runs
    ensures id == ordered[0].id <==> db.runs[id] == ordered[0]
    ensures id == ordered[0].id ==> Recovered(ordered[0], now) !in ordered[1..]
    ensures id != ordered[0].id ==> (db.runs[id] in ordered[1..] <==> db.runs[id] in ordered)
  {
    RecoveredIs(ordered[0], now);
    hide Recovered;
    assert forall k :: 1 <= k < |ordered| ==> ordered[k].id != ordered[0].id;
  }

  lemma TrimmingOnlyDrops(db: Db, ids: set<string>, id: RunId)
    requires id in db.runs
    ensures var t := TrimmedAll(db, ids);
            (id in t.runs ==> t.runs[id] == db.runs[id]) && (!Terminal(db.runs[id].status) ==> id in t.runs)
  {
    hide NewerThan, RunsOf;
  }

  /** After a restart every run made up to `startedBefore` is recovered, if it is still in
      the history, and the others are as they were. None of the former is running. */
  lemma RestartIsStored(db: Db, startedBefore: Time, now: Time, db': Db, id: RunId)
    requires Inv(db) && Step(db, Op.Recover(startedBefore), now, db') && id in db.runs
    ensures id in db'.runs ==>
              if db.runs[id].createdAt <= startedBefore
              then IsRecovered(db.runs[id], db'.runs[id], now) && db'.runs[id].status != Running
              else db'.runs[id] == db.runs[id]
    ensures Waits(db.runs[id]) ==> id in db'.runs && db'.runs[id] == db.runs[id]
  {
    hide ListsUpTo, RecoverWith, IsRecovered, Inv;
    var ordered :| ListsUpTo(db, startedBefore, ordered) && db' == RecoverWith(db, ordered, now);
    RestartedAt(db, startedBefore, ordered, now, id);
  }

  /** A run that waits with its prompt. */
  predicate Waits(run: Run) {
    run.status == Pending && !(run.cause == Event && (run.prompt.None? || IsBlank(run.prompt.value)))
  }

  lemma RecoveredStatus(was: Run, run: Run, now: Time)
    requires IsRecovered(was, run, now)
    ensures run.status != Running && (Waits(was) ==> run == was)
  {
  }

  lemma RestartedAt(db: Db, startedBefore: Time, ordered: seq<Run>, now: Time, id: RunId)
    requires Inv(db) && ListsUpTo(db, startedBefore, ordered) && id in db.runs
    ensures var was, t := db.runs[id], RecoverWith(db, ordered, now);
            && (id in t.runs ==>
                  if was.createdAt <= startedBefore then IsRecovered(was, t.runs[id], now) && t.runs[id].status != Running
                  else t.runs[id] == was)
            && (Waits(was) ==> id in t.runs && t.runs[id] == was)
  {
    ListedArePending(db, startedBefore, ordered);
    ListedIff(db, startedBefore, ordered, id);
    hide Inv, ListsUpTo, Unvisited, RecoverAll, Interrupted, TrimmedAll, IsRecovered;
    RecoverAllAt(db, ordered, now, id);
    var s := RecoverAll(db, ordered, now);
    TrimmingOnlyDrops(s, Interrupted(db, ordered, now), id);
    if db.runs[id] in ordered { RecoveredStatus(db.runs[id], s.runs[id], now); }
  }

  lemma ListedIff(db: Db, startedBefore: Time, ordered: seq<Run>, id: RunId)
    requires WellKeyed(db) && ListsUpTo(db, startedBefore, ordered) && id in db.runs
    ensures db.runs[id] in ordered <==> db.runs[id].createdAt <= startedBefore
  {
    assert db.runs[id] in ordered <==> db.runs[id] in Elements(ordered);
  }

  // ------------------------------------------------------------ edits, and times

  /** An edit replaces the plan and nothing else; a new automation has no run yet. */
  lemma EditIsStored(db: Db, op: Op, now: Time, db': Db)
    requires Step(db, op, now, db') && op.Upsert? && now < op.plan.nextRunAt
    ensures op.id in db'.rows && db'.runs == db.runs && db'.claims == db.claims
    ensures var a := db'.rows[op.id].def;
            && a.plan == op.plan && a.updatedAt == now
            && (if op.id in db.rows
                then var was := db.rows[op.id].def;
                     && a.createdAt == was.createdAt && a.lastRunAt == was.lastRunAt && a.lastSessionId == was.lastSessionId
                     && a.lastRunStatus == was.lastRunStatus && a.lastRunError == was.lastRunError
                else a.createdAt == now && a.lastRunAt.None? && a.lastSessionId.None? && a.lastRunStatus.None?)
    ensures forall id :: id != op.id ==>
              (id in db'.rows <==> id in db.rows) && (id in db.rows ==> db'.rows[id] == db.rows[id])
  {
  }

  /** A deleted automation goes with its runs and its ledger, and no other. */
  lemma DeletionIsComplete(db: Db, op: Op, now: Time, db': Db)
    requires Step(db, op, now, db') && op.Delete?
    ensures forall id :: (id in db'.rows <==> id in db.rows && id != op.id) && (id in db'.rows ==> db'.rows[id] == db.rows[id])
    ensures forall r :: (r in db'.runs <==> r in db.runs && db.runs[r].automation != op.id)
                        && (r in db'.runs ==> db'.runs[r] == db.runs[r])
    ensures forall c :: c in db'.claims <==> c in db.claims && c.0 != op.id
  {
  }

  /** A running run has started and a finished one has ended. */
  predicate HasTimes(run: Run) {
    (run.status == Running ==> run.startedAt.Some?)
    && (run.status != Pending && run.status != Running ==> run.completedAt.Some?)
  }

  ghost predicate TimesOk(db: Db) { forall id :: id in db.runs ==> HasTimes(db.runs[id]) }

  lemma {:induction false} RecoverKeepsTimes(db: Db, ordered: seq<Run>, now: Time)
    requires TimesOk(db)
    ensures TimesOk(RecoverAll(db, ordered, now))
    decreases |ordered|
  {
    if ordered != [] {
      RecoverOneKeepsTimes(db, ordered[0], now);
      hide TimesOk, RecoverOne;
      RecoverKeepsTimes(RecoverOne(db, ordered[0], now), ordered[1..], now);
    }
  }

  lemma RecoverOneKeepsTimes(db: Db, run: Run, now: Time)
    requires TimesOk(db)
    ensures TimesOk(RecoverOne(db, run, now))
  {
    hide ApplyRunSummary;
  }

  lemma StepKeepsTimes(db: Db, op: Op, now: Time, db': Db)
    requires TimesOk(db) && Step(db, op, now, db')
    ensures TimesOk(db')
  {
    hide ApplyRunSummary, Kept;
    if op.Recover? {
      var ordered :| ListsUpTo(db, op.startedBefore, ordered) && db' == RecoverWith(db, ordered, now);
      RecoverKeepsTimes(db, ordered, now);
      hide RecoverAll;
    }
  }

  /** In every run of the scheduler, however reports come. */
  lemma {:induction false} TimesHoldThroughout(states: seq<Db>, trace: seq<Moment>, i: nat)
    requires Behaviour(states, trace) && TimesOk(states[0]) && i < |states|
    ensures TimesOk(states[i])
    decreases i
  {
    if i > 0 {
      TimesHoldThroughout(states, trace, i - 1);
      StepKeepsTimes(states[i - 1], trace[i - 1].op, trace[i - 1].now, states[i]);
    }
  }
}
