/** `src-tauri/src/automations.rs`: scheduled and event-driven runs are claimed once,
    kept in a trimmed history, and summarised beside the automation. */
module Automations {
  import opened Wrappers

  const MAX_RUNS_PER_AUTOMATION: nat := 100
  const MAX_PROMPT: nat := 1_000_000

  /** Milliseconds. */
  type Time = int

  /** Identifiers of runs, in the order the database sorts them. */
  type RunId = nat

  datatype Status = Pending | Running | Succeeded | Failed | Skipped | Cancelled

  predicate Terminal(s: Status) { s != Pending && s != Running }

  datatype Cause = Scheduled | Manual | Event

  datatype Run = Run(
    id: RunId, automation: string, cause: Cause, scheduledFor: Time, createdAt: Time,
    startedAt: Option<Time>, completedAt: Option<Time>, status: Status,
    sessionId: Option<string>, error: Option<string>,
    eventKey: Option<string>, eventKind: string, event: string, prompt: Option<string>)

  datatype Trigger = Trigger(kind: string, event: string)

  /** What a user edits; `settings` stands for the fields no rule here reads. */
  datatype Plan = Plan(
    prompt: string, triggers: seq<Trigger>, graceMinutes: nat, enabled: bool,
    nextRunAt: Time, settings: string)

  datatype Automation = Automation(
    plan: Plan, lastRunAt: Option<Time>, lastRunStatus: Option<Status>,
    lastRunError: Option<string>, lastSessionId: Option<string>,
    createdAt: Time, updatedAt: Time)

  /** A row: the stored definition, and the columns the due query reads. */
  datatype Row = Row(def: Automation, enabled: bool, nextRunAt: Time, updatedAt: Time)

  datatype Db = Db(rows: map<string, Row>, runs: map<RunId, Run>, claims: set<(string, string)>)

  predicate HasTimeTrigger(a: Automation) {
    exists t :: t in a.plan.triggers && t.kind == "time"
  }

  predicate HasEventTrigger(a: Automation, kind: string, event: string) {
    exists t :: t in a.plan.triggers && t.kind == kind && t.event == event
  }

  predicate IsBlank(s: string) { forall c :: c in s ==> c in {' ', '\t', '\n', '\r'} }

  predicate IsKeyChar(c: char) {
    'a' <= c <= 'z' || 'A' <= c <= 'Z' || '0' <= c <= '9' || c in {'-', '_', ':', '/', '.'}
  }

  predicate ValidEventKey(k: string) { 0 < |k| <= 400 && forall c :: c in k ==> IsKeyChar(c) }

  /** `write_automation`: every column is taken from the definition. */
  function WithAutomation(db: Db, id: string, a: Automation): Db {
    db.(rows := db.rows[id := Row(a, a.plan.enabled, a.plan.nextRunAt, a.updatedAt)])
  }

  function WithRun(db: Db, run: Run): Db { db.(runs := db.runs[run.id := run]) }

  function NewRun(id: RunId, automation: string, cause: Cause, scheduledFor: Time, now: Time, prompt: string): Run {
    Run(id, automation, cause, scheduledFor, now, None, None, Pending, None, None, None, "", "", Some(prompt))
  }

  /** `apply_run_summary`: only the newest run, or a tie, reaches the summary. */
  function ApplyRunSummary(a: Automation, run: Run): Automation {
    if a.lastRunAt.None? || run.createdAt >= a.lastRunAt.value then
      a.(lastRunAt := Some(run.createdAt), lastRunStatus := Some(run.status),
         lastRunError := run.error,
         lastSessionId := if run.sessionId.Some? then run.sessionId else a.lastSessionId)
    else a
  }

  // ---------------------------------------------------------------- history

  /** The history's order: newest first, then greatest id. */
  predicate Newer(x: Run, y: Run) {
    x.createdAt > y.createdAt || (x.createdAt == y.createdAt && x.id > y.id)
  }

  function RunsOf(db: Db, automation: string): set<Run> {
    set id | id in db.runs && db.runs[id].automation == automation :: db.runs[id]
  }

  function NewerThan(runs: set<Run>, r: Run): set<Run> { set x | x in runs && Newer(x, r) }

  /** A run stays unless it is finished and at least a hundred are newer. */
  predicate Kept(db: Db, automation: string, r: Run) {
    || r.automation != automation
    || !Terminal(r.status)
    || |NewerThan(RunsOf(db, automation), r)| < MAX_RUNS_PER_AUTOMATION
  }

  function Trimmed(db: Db, automation: string): Db {
    db.(runs := map id | id in db.runs && Kept(db, automation, db.runs[id]) :: db.runs[id])
  }

  ghost predicate SortedNewestFirst(rows: seq<Run>) {
    forall i, j :: 0 <= i < j < |rows| ==> Newer(rows[i], rows[j])
  }

  function Elements(rows: seq<Run>): set<Run> { set x | x in rows }

  ghost predicate UniqueIds(runs: set<Run>) {
    forall x, y :: x in runs && y in runs && x.id == y.id ==> x == y
  }

  lemma {:induction false} NewestExists(runs: set<Run>) returns (r: Run)
    requires runs != {} && UniqueIds(runs)
    ensures r in runs && forall x :: x in runs && x != r ==> Newer(r, x)
    decreases |runs|
  {
    var y :| y in runs;
    var rest := runs - {y};
    assert runs == rest + {y};
    if rest == {} {
      r := y;
    } else {
      var z := NewestExists(rest);
      assert y.id != z.id;
      r := if Newer(y, z) then y else z;
      forall x | x in runs && x != r ensures Newer(r, x) {
        assert x == y || x in rest;
      }
    }
  }

  lemma {:induction false} SeqToSet(rows: seq<Run>)
    requires SortedNewestFirst(rows)
    ensures |Elements(rows)| == |rows|
    decreases |rows|
  {
    if rows != [] {
      var n := |rows| - 1;
      SeqToSet(rows[..n]);
      assert Elements(rows) == Elements(rows[..n]) + {rows[n]};
      assert rows[n] !in rows[..n];
    }
  }

  /** In the sorted history, the position of a run is the number of newer ones. */
  lemma RankIsIndex(rows: seq<Run>, i: nat)
    requires SortedNewestFirst(rows) && i < |rows|
    ensures |NewerThan(Elements(rows), rows[i])| == i
  {
    assert rows == rows[..i] + rows[i..];
    forall x ensures x in NewerThan(Elements(rows), rows[i]) <==> x in rows[..i] {
      if x in rows[..i] {
        var k :| 0 <= k < i && rows[k] == x;
      }
      if x in rows && Newer(x, rows[i]) {
        var k :| 0 <= k < |rows| && rows[k] == x;
        assert k < i;
        assert rows[..i][k] == x;
      }
    }
    assert NewerThan(Elements(rows), rows[i]) == Elements(rows[..i]);
    SeqToSet(rows[..i]);
  }

  // ------------------------------------------------------------- operations

  datatype Op =
    | Upsert(id: string, plan: Plan)
    | Delete(id: string)
    | RunNow(id: string, runId: RunId)
    | ClaimDue(id: string, expected: Time, next: Time, runId: RunId)
    | ClaimEvent(id: string, key: string, kind: string, event: string, scheduledFor: Time,
                 prompt: string, runId: RunId)
    | UpdateRun(runId: RunId, status: Status, sessionId: Option<string>, error: Option<string>)
    | Recover(startedBefore: Time)
    | Reopen

  /** The update statement of `automations_claim_due` would touch the row. */
  predicate IsDue(db: Db, id: string, expected: Time, next: Time, now: Time) {
    && expected < next && id in db.rows && HasTimeTrigger(db.rows[id].def)
    && db.rows[id].enabled && db.rows[id].nextRunAt == expected && expected <= now
  }

  predicate ValidEvent(key: string, kind: string, event: string, prompt: string) {
    && ValidEventKey(key)
    && kind in {"github", "linear", "jira", "gitlab", "azuredevops"}
    && 0 < |event| <= 200
    && !IsBlank(prompt) && |prompt| <= MAX_PROMPT + 10_000
  }

  /** The event is wanted and its key was never claimed. */
  predicate IsNewEvent(db: Db, id: string, key: string, kind: string, event: string, prompt: string) {
    && ValidEvent(key, kind, event, prompt)
    && id in db.rows && db.rows[id].def.plan.enabled
    && HasEventTrigger(db.rows[id].def, kind, event)
    && (id, key) !in db.claims
  }

  function Upserted(db: Db, id: string, plan: Plan, now: Time): Automation {
    if id in db.rows then db.rows[id].def.(plan := plan, updatedAt := now)
    else Automation(plan, None, None, None, None, now, now)
  }

  function DueRun(db: Db, id: string, expected: Time, now: Time, runId: RunId): Run
    requires id in db.rows
  {
    var plan := db.rows[id].def.plan;
    var run := NewRun(runId, id, Scheduled, expected, now, plan.prompt);
    if now - expected <= plan.graceMinutes * 60_000 then run
    else run.(status := Skipped, completedAt := Some(now),
              error := Some("Missed the scheduled run beyond its grace period."))
  }

  function EventRun(id: string, key: string, kind: string, event: string, scheduledFor: Time,
                    prompt: string, now: Time, runId: RunId): Run
  {
    NewRun(runId, id, Event, if scheduledFor > 0 then scheduledFor else now, now, prompt)
    .(eventKey := Some(key), eventKind := kind, event := event)
  }

  /** A new run becomes the summary at once. */
  function Shown(db: Db, id: string, a: Automation, run: Run): Db {
    WithAutomation(WithRun(db, run), id,
      a.(lastRunAt := Some(run.createdAt), lastRunStatus := Some(run.status),
         lastRunError := run.error))
  }

  function Started(db: Db, id: string, a: Automation, run: Run): Db {
    Trimmed(Shown(db, id, a, run), id)
  }

  function UpdatedRun(run: Run, status: Status, sessionId: Option<string>, error: Option<string>, now: Time): Run {
    run.(status := status,
         startedAt := if status == Running && run.startedAt.None? then Some(now) else run.startedAt,
         completedAt := if Terminal(status) then Some(now) else run.completedAt,
         sessionId := if sessionId.Some? then sessionId else run.sessionId,
         error := if error.Some? && !IsBlank(error.value) then error else None)
  }

  /** Stores a changed run and lets the summary follow. */
  function Reported(db: Db, run: Run): Db {
    if run.automation !in db.rows then db
    else WithAutomation(WithRun(db, run), run.automation,
                         ApplyRunSummary(db.rows[run.automation].def, run))
  }

  /** What a restart makes of one unfinished run. */
  function Recovered(run: Run, now: Time): Run {
    if run.status == Running then
      run.(status := Cancelled, completedAt := Some(now),
           error := Some("Interrupted when MonoCode last stopped."))
    else if run.status == Pending && run.cause == Event && (run.prompt.None? || IsBlank(run.prompt.value)) then
      run.(status := Failed, completedAt := Some(now),
           error := Some("The Inbox event prompt was not available after restart."))
    else run
  }

  function RecoverOne(db: Db, run: Run, now: Time): Db {
    if Recovered(run, now) != run then Reported(db, Recovered(run, now)) else db
  }

  function RecoverAll(db: Db, ordered: seq<Run>, now: Time): Db
    decreases |ordered|
  {
    if ordered == [] then db else RecoverAll(RecoverOne(db, ordered[0], now), ordered[1..], now)
  }

  /** A run that a restart hands out to be started after all. */
  predicate Waits(db: Db, run: Run, now: Time) {
    run.status == Pending && run.automation in db.rows && Recovered(run, now) == run
  }

  /** The runs a restart hands out, each with its automation as stored when its turn comes. */
  function Restartable(db: Db, ordered: seq<Run>, now: Time): seq<Due>
    decreases |ordered|
  {
    if ordered == [] then []
    else
      (if Waits(db, ordered[0], now) then [Due(db.rows[ordered[0].automation].def, ordered[0])] else [])
      + Restartable(RecoverOne(db, ordered[0], now), ordered[1..], now)
  }

  lemma RecoverOneKeepsPlans(db: Db, run: Run, now: Time)
    ensures var s := RecoverOne(db, run, now);
            && s.rows.Keys == db.rows.Keys
            && forall id :: id in db.rows ==> s.rows[id].def.plan == db.rows[id].def.plan
  {
  }

  /** They are exactly the listed runs still pending, in the order of the list. */
  lemma {:induction false} RestartableAreTheWaiting(db: Db, ordered: seq<Run>, now: Time)
    requires forall i, j :: 0 <= i < j < |ordered| ==> Newer(ordered[j], ordered[i])
    ensures var due := Restartable(db, ordered, now);
            && (forall d :: d in due ==> d.run in ordered && Waits(db, d.run, now)
                                         && d.automation.plan == db.rows[d.run.automation].def.plan)
            && (forall r :: r in ordered && Waits(db, r, now) ==> exists d :: d in due && d.run == r)
            && (forall i, j :: 0 <= i < j < |due| ==> Newer(due[j].run, due[i].run))
    decreases |ordered|
  {
    hide Recovered, RecoverOne, Newer;
    if ordered != [] {
      var first, next := ordered[0], RecoverOne(db, ordered[0], now);
      RecoverOneKeepsPlans(db, first, now);
      RestartableAreTheWaiting(next, ordered[1..], now);
      var due, more := Restartable(db, ordered, now), Restartable(next, ordered[1..], now);
      forall r | r in ordered && Waits(db, r, now) ensures exists d :: d in due && d.run == r {
        if r == first {
          assert due[0].run == r;
        } else {
          assert Waits(next, r, now);
          var d :| d in more && d.run == r;
          assert d in due;
        }
      }
      forall d | d in more ensures Newer(d.run, first) {
        var k :| 1 <= k < |ordered| && ordered[k] == d.run;
      }
    }
  }

  /** The automations with a run that a restart finishes. */
  function Interrupted(db: Db, ordered: seq<Run>, now: Time): set<string> {
    set r | r in ordered && r.automation in db.rows && Recovered(r, now) != r :: r.automation
  }

  /** Every listed automation's history is trimmed. */
  function TrimmedAll(db: Db, ids: set<string>): Db {
    db.(runs := map id | id in db.runs
                  && (db.runs[id].automation in ids ==> Kept(db, db.runs[id].automation, db.runs[id]))
                :: db.runs[id])
  }

  /** The query of a restart: the runs made by `startedBefore`, oldest first. */
  ghost predicate ListsUpTo(db: Db, startedBefore: Time, ordered: seq<Run>) {
    && (forall i, j :: 0 <= i < j < |ordered| ==> Newer(ordered[j], ordered[i]))
    && Elements(ordered) == set id | id in db.runs && db.runs[id].createdAt <= startedBefore :: db.runs[id]
  }

  function RecoverWith(db: Db, ordered: seq<Run>, now: Time): Db {
    TrimmedAll(RecoverAll(db, ordered, now), Interrupted(db, ordered, now))
  }

  /** `ensure_tables`: runs of older versions enter the ledger. */
  function Backfilled(db: Db): Db {
    db.(claims := db.claims + set id | id in db.runs && db.runs[id].eventKey.Some? ::
                    (db.runs[id].automation, db.runs[id].eventKey.value))
  }

  /** The database after an operation made at `now`. */
  ghost predicate Step(db: Db, op: Op, now: Time, db': Db) {
    match op
    case Upsert(id, plan) =>
      db' == if plan.nextRunAt <= now then db
             else WithAutomation(db, id, Upserted(db, id, plan, now))
    case Delete(id) =>
      db' == Db(db.rows - {id},
                map r | r in db.runs && db.runs[r].automation != id :: db.runs[r],
                set c | c in db.claims && c.0 != id)
    case RunNow(id, runId) =>
      db' == if id !in db.rows then db
             else var a := db.rows[id].def;
                  Started(db, id, a, NewRun(runId, id, Manual, now, now, a.plan.prompt))
    case ClaimDue(id, expected, next, runId) =>
      db' == if !IsDue(db, id, expected, next, now) then db
             else var a := db.rows[id].def;
                  Started(db, id, a.(plan := a.plan.(nextRunAt := next)), DueRun(db, id, expected, now, runId))
    case ClaimEvent(id, key, kind, event, scheduledFor, prompt, runId) =>
      db' == if !IsNewEvent(db, id, key, kind, event, prompt) then db
             else Started(db.(claims := db.claims + {(id, key)}), id, db.rows[id].def,
                          EventRun(id, key, kind, event, scheduledFor, prompt, now, runId))
    case UpdateRun(runId, status, sessionId, error) =>
      db' == if runId !in db.runs || db.runs[runId].automation !in db.rows then db
             else var run := UpdatedRun(db.runs[runId], status, sessionId, error, now);
                  Trimmed(Reported(db, run), run.automation)
    case Recover(startedBefore) =>
      exists ordered :: ListsUpTo(db, startedBefore, ordered) && db' == RecoverWith(db, ordered, now)
    case Reopen => db' == Backfilled(db)
  }

  datatype Due = Due(automation: Automation, run: Run)

  ghost predicate AllNewer(sorted: seq<Run>, remaining: set<Run>) {
    forall i, y :: 0 <= i < |sorted| && y in remaining ==> Newer(sorted[i], y)
  }

  lemma SortStep(sorted: seq<Run>, remaining: set<Run>, r: Run)
    requires SortedNewestFirst(sorted) && AllNewer(sorted, remaining)
    requires r in remaining && forall x :: x in remaining && x != r ==> Newer(r, x)
    ensures SortedNewestFirst(sorted + [r]) && AllNewer(sorted + [r], remaining - {r})
    ensures Elements(sorted + [r]) + (remaining - {r}) == Elements(sorted) + remaining
  {
    hide Newer;
    assert Elements(sorted + [r]) == Elements(sorted) + {r};
  }

  lemma SortStart(all: set<Run>)
    ensures SortedNewestFirst([]) && AllNewer([], all)
  {
  }

  /** The database's ORDER BY. */
  method Sort(all: set<Run>) returns (sorted: seq<Run>)
    requires UniqueIds(all)
    ensures SortedNewestFirst(sorted) && Elements(sorted) == all
  {
    hide Newer, SortedNewestFirst, AllNewer;
    var remaining := all;
    sorted := [];
    SortStart(all);
    while remaining != {}
      invariant UniqueIds(remaining) && SortedNewestFirst(sorted) && AllNewer(sorted, remaining)
      invariant Elements(sorted) + remaining == all
      decreases |remaining|
    {
      ghost var newest := NewestExists(remaining);
      var r :| r in remaining && forall x :: x in remaining && x != r ==> Newer(r, x);
      SortStep(sorted, remaining, r);
      remaining := remaining - {r};
      sorted := sorted + [r];
    }
  }

  class AutomationStore {
    var rows: map<string, Row>
    var runs: map<RunId, Run>
    var claims: set<(string, string)>

    ghost function State(): Db
      reads this
    {
      Db(rows, runs, claims)
    }

    ghost predicate Valid()
      reads this
    {
      forall id :: id in runs ==> runs[id].id == id
    }

    constructor ()
      ensures Valid() && State() == Db(map[], map[], {})
    {
      rows, runs, claims := map[], map[], {};
    }

    method WriteAutomation(id: string, a: Automation)
      modifies this`rows
      ensures State() == WithAutomation(old(State()), id, a)
    {
      rows := rows[id := Row(a, a.plan.enabled, a.plan.nextRunAt, a.updatedAt)];
    }

    method WriteRun(run: Run)
      requires Valid()
      modifies this`runs
      ensures Valid() && State() == WithRun(old(State()), run)
    {
      runs := runs[run.id := run];
    }

    /** The history query: the automation's runs, newest first. */
    method SelectNewestFirst(automation: string) returns (sorted: seq<Run>)
      requires Valid()
      ensures SortedNewestFirst(sorted)
      ensures Elements(sorted) == RunsOf(State(), automation)
    {
      sorted := Sort(RunsOf(Db(rows, runs, claims), automation));
    }

    method TrimHistory(automation: string)
      requires Valid()
      modifies this`runs
      ensures Valid() && State() == Trimmed(old(State()), automation)
    {
      var sorted := SelectNewestFirst(automation);
      var deleteIds: set<RunId> := {};
      ghost var all := RunsOf(State(), automation);
      for index := 0 to |sorted|
        invariant deleteIds == set i | 0 <= i < index && i >= MAX_RUNS_PER_AUTOMATION
                                         && Terminal(sorted[i].status) :: sorted[i].id
      {
        if index >= MAX_RUNS_PER_AUTOMATION && Terminal(sorted[index].status) {
          deleteIds := deleteIds + {sorted[index].id};
        }
      }
      DeletedAreNotKept(State(), automation, sorted, deleteIds);
      runs := runs - deleteIds;
      assert runs == Trimmed(old(State()), automation).runs;
    }

    method Start(id: string, a: Automation, run: Run)
      requires Valid() && a.lastRunAt == Some(run.createdAt)
      requires a.lastRunStatus == Some(run.status) && a.lastRunError == run.error
      modifies this
      ensures Valid() && State() == Started(old(State()), id, a, run)
    {
      WriteRun(run);
      WriteAutomation(id, a);
      TrimHistory(id);
    }

    /** `now` is read, and the plan checked against it, before the lock is taken. */
    method Upsert(id: string, plan: Plan, now: Time) returns (ok: bool)
      requires Valid()
      modifies this
      ensures Valid() && ok == (plan.nextRunAt > now)
      ensures Step(old(State()), Op.Upsert(id, plan), now, State())
    {
      if plan.nextRunAt <= now {
        return false;
      }
      var saved;
      if id in rows {
        var previous := rows[id].def;
        saved := Automation(plan, previous.lastRunAt, previous.lastRunStatus, previous.lastRunError,
                            previous.lastSessionId, previous.createdAt, now);
      } else {
        saved := Automation(plan, None, None, None, None, now, now);
      }
      WriteAutomation(id, saved);
      ok := true;
    }

    method Delete(id: string)
      requires Valid()
      modifies this
      ensures Valid() && forall now :: Step(old(State()), Op.Delete(id), now, State())
    {
      rows := rows - {id};
      runs := map r | r in runs && runs[r].automation != id :: runs[r];
      claims := set c | c in claims && c.0 != id;
    }

    method RunNow(id: string, now: Time, runId: RunId) returns (r: Option<Run>)
      requires Valid()
      modifies this
      ensures Valid() && Step(old(State()), Op.RunNow(id, runId), now, State())
      ensures r == if id !in old(rows) then None
                   else Some(NewRun(runId, id, Manual, now, now, old(rows)[id].def.plan.prompt))
    {
      if id !in rows {
        return None;
      }
      var automation := rows[id].def;
      var run := NewRun(runId, id, Manual, now, now, automation.plan.prompt);
      automation := automation.(lastRunAt := Some(now), lastRunStatus := Some(run.status),
                                lastRunError := None);
      Start(id, automation, run);
      r := Some(run);
    }

    method ClaimDue(id: string, expected: Time, next: Time, now: Time, runId: RunId)
      returns (r: Option<Due>)
      requires Valid()
      modifies this
      ensures Valid() && Step(old(State()), Op.ClaimDue(id, expected, next, runId), now, State())
      ensures r.Some? <==> IsDue(old(State()), id, expected, next, now)
      ensures r.Some? ==> id in rows && r.value == Due(rows[id].def, DueRun(old(State()), id, expected, now, runId))
    {
      if next <= expected || id !in rows || !HasTimeTrigger(rows[id].def) {
        return None;
      }
      if !(rows[id].enabled && rows[id].nextRunAt == expected && rows[id].nextRunAt <= now) {
        return None;
      }
      // The conditional update has set the column; the definition follows.
      ghost var before := State();
      rows := rows[id := rows[id].(nextRunAt := next)];
      var automation := rows[id].def;
      automation := automation.(plan := automation.plan.(nextRunAt := next));
      var run := NewRun(runId, id, Scheduled, expected, now, automation.plan.prompt);
      var graceMs := automation.plan.graceMinutes * 60_000;
      if now - expected > graceMs {
        run := run.(status := Skipped, completedAt := Some(now),
                    error := Some("Missed the scheduled run beyond its grace period."));
      }
      automation := automation.(lastRunAt := Some(now), lastRunStatus := Some(run.status),
                                lastRunError := run.error);
      ColumnIsOverwritten(before, id, next, automation, run);
      Start(id, automation, run);
      r := Some(Due(automation, run));
    }

    method ClaimEvent(id: string, key: string, kind: string, event: string, scheduledFor: Time,
                      prompt: string, now: Time, runId: RunId) returns (r: Option<Due>)
      requires Valid()
      modifies this
      ensures Valid()
      ensures Step(old(State()), Op.ClaimEvent(id, key, kind, event, scheduledFor, prompt, runId), now, State())
      ensures r.Some? <==> IsNewEvent(old(State()), id, key, kind, event, prompt)
      ensures r.Some? ==> id in rows && r.value == Due(rows[id].def,
                EventRun(id, key, kind, event, scheduledFor, prompt, now, runId))
    {
      if !ValidEvent(key, kind, event, prompt) || id !in rows {
        return None;
      }
      var automation := rows[id].def;
      if !automation.plan.enabled || !HasEventTrigger(automation, kind, event) {
        return None;
      }
      if (id, key) in claims {
        return None;
      }
      claims := claims + {(id, key)};
      var run := EventRun(id, key, kind, event, scheduledFor, prompt, now, runId);
      automation := automation.(lastRunAt := Some(now), lastRunStatus := Some(run.status),
                                lastRunError := None);
      Start(id, automation, run);
      r := Some(Due(automation, run));
    }

    method Report(run: Run)
      requires Valid() && run.automation in rows
      modifies this
      ensures Valid() && State() == Reported(old(State()), run) && rows.Keys == old(rows).Keys
    {
      var automation := ApplyRunSummary(rows[run.automation].def, run);
      WriteRun(run);
      WriteAutomation(run.automation, automation);
    }

    method UpdateRun(runId: RunId, status: Status, sessionId: Option<string>, error: Option<string>, now: Time)
      returns (r: Option<Run>)
      requires Valid()
      modifies this
      ensures Valid() && Step(old(State()), Op.UpdateRun(runId, status, sessionId, error), now, State())
      ensures r == if runId in old(runs) && old(runs)[runId].automation in old(rows)
                   then Some(UpdatedRun(old(runs)[runId], status, sessionId, error, now)) else None
    {
      if runId !in runs || runs[runId].automation !in rows {
        return None;
      }
      var run := UpdatedRun(runs[runId], status, sessionId, error, now);
      Report(run);
      TrimHistory(run.automation);
      r := Some(run);
    }

    /** `EnsureTables` of a restart. */
    method Reopen()
      requires Valid()
      modifies this
      ensures Valid() && forall now :: Step(old(State()), Op.Reopen, now, State())
    {
      claims := claims + set id | id in runs && runs[id].eventKey.Some? ::
        (runs[id].automation, runs[id].eventKey.value);
    }

    /** Runs of an earlier process: running ones are cancelled, pending ones are
        returned to be started, unless their prompt is gone. */
    method Recover(startedBefore: Time, now: Time) returns (due: seq<Due>)
      requires Valid()
      modifies this
      ensures Valid() && Step(old(State()), Op.Recover(startedBefore), now, State())
      ensures forall d :: d in due ==>
                && d.run.id in old(runs) && old(runs)[d.run.id] == d.run && d.run.createdAt <= startedBefore
                && Waits(old(State()), d.run, now)
                && d.automation.plan == old(rows)[d.run.automation].def.plan
      ensures forall id :: id in old(runs) && old(runs)[id].createdAt <= startedBefore
                           && Waits(old(State()), old(runs)[id], now) ==>
                exists d :: d in due && d.run == old(runs)[id]
      ensures forall i, j :: 0 <= i < j < |due| ==> Newer(due[j].run, due[i].run)
    {
      ghost var before := State();
      var ordered := SelectUpTo(startedBefore);
      forall r | r in ordered ensures r.id in runs && runs[r.id] == r && r.createdAt <= startedBefore {
        assert r in Elements(ordered);
      }
      forall id | id in runs && runs[id].createdAt <= startedBefore ensures runs[id] in ordered {
        assert runs[id] in Elements(ordered);
      }
      RestartableAreTheWaiting(before, ordered, now);
      var changed;
      due, changed := RecoverRuns(ordered, now);
      TrimEach(changed);
      assert State() == RecoverWith(before, ordered, now);
    }

    method SelectUpTo(startedBefore: Time) returns (ordered: seq<Run>)
      requires Valid()
      ensures ListsUpTo(State(), startedBefore, ordered)
    {
      var sorted := Sort(set id | id in runs && runs[id].createdAt <= startedBefore :: runs[id]);
      ordered := seq(|sorted|, i requires 0 <= i < |sorted| => sorted[|sorted| - 1 - i]);
      ReversedElements(sorted, ordered);
    }

    method RecoverRuns(ordered: seq<Run>, now: Time) returns (due: seq<Due>, changed: set<string>)
      requires Valid()
      requires forall r :: r in ordered ==> r.id in runs && runs[r.id] == r
      modifies this
      ensures Valid() && State() == RecoverAll(old(State()), ordered, now)
      ensures changed == Interrupted(old(State()), ordered, now)
      ensures due == Restartable(old(State()), ordered, now)
    {
      hide Reported, Recovered, Walked;
      ghost var before := State();
      due, changed := [], {};
      WalkStarts(before, ordered, now);
      for i := 0 to |ordered|
        invariant Valid() && Walked(before, State(), ordered, i, now, due, changed)
      {
        var run := Recovered(ordered[i], now);
        WalkStep(before, State(), ordered, i, now, due, changed);
        if run.automation in rows && run != ordered[i] {
          Report(run);
          changed := changed + {run.automation};
        } else if run.automation in rows && run.status == Pending {
          due := due + [Due(rows[run.automation].def, run)];
        }
      }
      WalkEnds(before, State(), ordered, now, due, changed);
    }

    method TrimEach(ids: set<string>)
      requires Valid()
      modifies this`runs
      ensures Valid() && State() == TrimmedAll(old(State()), ids)
    {
      ghost var before := State();
      var todo := ids;
      assert State() == TrimmedAll(before, {});
      while todo != {}
        invariant Valid() && todo <= ids && State() == TrimmedAll(before, ids - todo)
        decreases |todo|
      {
        var id :| id in todo;
        TrimOneMore(before, ids - todo, id);
        assert (ids - todo) + {id} == ids - (todo - {id});
        TrimHistory(id);
        todo := todo - {id};
      }
      assert ids - todo == ids;
    }
  }

  /** A restart has dealt with the first `i` of the listed runs. */
  ghost predicate Walked(before: Db, db: Db, ordered: seq<Run>, i: nat, now: Time, due: seq<Due>, changed: set<string>)
    requires i <= |ordered|
  {
    && db.rows.Keys == before.rows.Keys
    && RecoverAll(before, ordered, now) == RecoverAll(db, ordered[i..], now)
    && Restartable(before, ordered, now) == due + Restartable(db, ordered[i..], now)
    && changed == Interrupted(before, ordered[..i], now)
  }

  lemma WalkStarts(before: Db, ordered: seq<Run>, now: Time)
    ensures Walked(before, before, ordered, 0, now, [], {})
  {
    assert ordered[0..] == ordered && ordered[..0] == [];
  }

  lemma WalkEnds(before: Db, db: Db, ordered: seq<Run>, now: Time, due: seq<Due>, changed: set<string>)
    requires Walked(before, db, ordered, |ordered|, now, due, changed)
    ensures db == RecoverAll(before, ordered, now) && due == Restartable(before, ordered, now)
    ensures changed == Interrupted(before, ordered, now)
  {
    assert ordered[..|ordered|] == ordered && ordered[|ordered|..] == [];
  }

  lemma WalkStep(before: Db, db: Db, ordered: seq<Run>, i: nat, now: Time, due: seq<Due>, changed: set<string>)
    requires i < |ordered| && Walked(before, db, ordered, i, now, due, changed)
    ensures var first, run := ordered[i], Recovered(ordered[i], now);
            && run.automation == first.automation && run.id == first.id
            && Walked(before, RecoverOne(db, first, now), ordered, i + 1, now,
                      if Waits(db, first, now) then due + [Due(db.rows[first.automation].def, first)] else due,
                      if first.automation in db.rows && run != first then changed + {first.automation} else changed)
            && RecoverOne(db, first, now) == if first.automation in db.rows && run != first then Reported(db, run) else db
  {
    var first := ordered[i];
    RecoveredKeeps(first, now);
    RecoverOneKeepsPlans(db, first, now);
    InterruptedStep(before, ordered, i, now);
    assert ordered[i..][1..] == ordered[i + 1..];
    hide Recovered, Interrupted;
  }

  lemma RecoveredKeeps(run: Run, now: Time)
    ensures Recovered(run, now).automation == run.automation && Recovered(run, now).id == run.id
  {
  }

  lemma InterruptedStep(db: Db, ordered: seq<Run>, i: nat, now: Time)
    requires i < |ordered|
    ensures Interrupted(db, ordered[..i + 1], now) == Interrupted(db, ordered[..i], now)
            + if ordered[i].automation in db.rows && Recovered(ordered[i], now) != ordered[i]
              then {ordered[i].automation} else {}
  {
    hide Recovered;
    assert ordered[..i + 1] == ordered[..i] + [ordered[i]];
  }

  lemma ReversedElements(sorted: seq<Run>, ordered: seq<Run>)
    requires |ordered| == |sorted| && forall i :: 0 <= i < |sorted| ==> ordered[i] == sorted[|sorted| - 1 - i]
    ensures Elements(ordered) == Elements(sorted)
  {
    forall x | x in sorted ensures x in ordered {
      var k :| 0 <= k < |sorted| && sorted[k] == x;
      assert ordered[|sorted| - 1 - k] == x;
    }
  }

  /** Trimming one automation does not change what another keeps. */
  lemma TrimOneMore(db: Db, ids: set<string>, id: string)
    requires id !in ids
    ensures Trimmed(TrimmedAll(db, ids), id) == TrimmedAll(db, ids + {id})
  {
    var t := TrimmedAll(db, ids);
    forall x | x in RunsOf(db, id) ensures x in RunsOf(t, id) {
      var k :| k in db.runs && db.runs[k].automation == id && db.runs[k] == x;
      assert k in t.runs;
    }
    assert RunsOf(t, id) == RunsOf(db, id);
    assert Trimmed(t, id).runs == TrimmedAll(db, ids + {id}).runs;
  }

  lemma ColumnIsOverwritten(db: Db, id: string, next: Time, a: Automation, run: Run)
    requires id in db.rows
    ensures Started(db.(rows := db.rows[id := db.rows[id].(nextRunAt := next)]), id, a, run)
            == Started(db, id, a, run)
  {
    var db' := db.(rows := db.rows[id := db.rows[id].(nextRunAt := next)]);
    var a' := a.(lastRunAt := Some(run.createdAt), lastRunStatus := Some(run.status),
                 lastRunError := run.error);
    assert WithAutomation(WithRun(db', run), id, a') == WithAutomation(WithRun(db, run), id, a');
  }

  lemma DeletedAreNotKept(db: Db, automation: string, sorted: seq<Run>, deleteIds: set<RunId>)
    requires forall id :: id in db.runs ==> db.runs[id].id == id
    requires SortedNewestFirst(sorted) && Elements(sorted) == RunsOf(db, automation)
    requires deleteIds == set i | 0 <= i < |sorted| && i >= MAX_RUNS_PER_AUTOMATION
                                    && Terminal(sorted[i].status) :: sorted[i].id
    ensures forall id :: id in db.runs ==> (id in deleteIds <==> !Kept(db, automation, db.runs[id]))
  {
    forall i | 0 <= i < |sorted| ensures sorted[i] in RunsOf(db, automation) {
      assert sorted[i] in Elements(sorted);
    }
    forall id | id in db.runs && db.runs[id].automation == automation
      ensures id in deleteIds <==> !Kept(db, automation, db.runs[id])
    {
      var r := db.runs[id];
      assert r in RunsOf(db, automation) && r in Elements(sorted);
      var i :| 0 <= i < |sorted| && sorted[i] == r;
      RankIsIndex(sorted, i);
      if id in deleteIds {
        var j :| 0 <= j < |sorted| && j >= MAX_RUNS_PER_AUTOMATION
                 && Terminal(sorted[j].status) && sorted[j].id == id;
        RankIsIndex(sorted, j);
      }
    }
  }
}
