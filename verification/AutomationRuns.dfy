/** What `src-tauri/src/automations.rs` keeps over every sequence of operations, each
    one atomic under the database lock. */
module AutomationRuns {
  import opened Wrappers
  import opened Automations

  // ------------------------------------------------------------- invariants

  ghost predicate WellKeyed(db: Db) {
    forall id :: id in db.runs ==> db.runs[id].id == id && db.runs[id].automation in db.rows
  }

  /** The columns of the due query equal the stored definition. */
  ghost predicate ColumnsAgree(db: Db) {
    forall id :: id in db.rows ==>
      && db.rows[id].enabled == db.rows[id].def.plan.enabled
      && db.rows[id].nextRunAt == db.rows[id].def.plan.nextRunAt
      && db.rows[id].updatedAt == db.rows[id].def.updatedAt
  }

  ghost predicate LedgerCovers(db: Db) {
    forall id :: id in db.runs && db.runs[id].eventKey.Some? ==>
      (db.runs[id].automation, db.runs[id].eventKey.value) in db.claims
  }

  ghost predicate DistinctTimes(db: Db) {
    forall x, y :: (x in db.runs && y in db.runs && x != y
                    && db.runs[x].automation == db.runs[y].automation) ==>
      db.runs[x].createdAt != db.runs[y].createdAt
  }

  ghost predicate IsNewest(db: Db, automation: string, id: RunId) {
    && id in db.runs && db.runs[id].automation == automation
    && forall k :: k in db.runs && db.runs[k].automation == automation && k != id ==>
         db.runs[k].createdAt < db.runs[id].createdAt
  }

  predicate Shows(a: Automation, r: Run) {
    a.lastRunAt == Some(r.createdAt) && a.lastRunStatus == Some(r.status) && a.lastRunError == r.error
  }

  ghost predicate HasRuns(db: Db, automation: string) {
    exists id :: id in db.runs && db.runs[id].automation == automation
  }

  /** The summary beside an automation is its newest run. */
  ghost predicate MirrorOf(db: Db, automation: string)
    requires automation in db.rows
  {
    || (!HasRuns(db, automation) && db.rows[automation].def.lastRunAt.None?)
    || exists id :: IsNewest(db, automation, id) && Shows(db.rows[automation].def, db.runs[id])
  }

  ghost predicate Mirror(db: Db) {
    forall id :: id in db.rows ==> MirrorOf(db, id)
  }

  ghost predicate Consistent(db: Db) {
    WellKeyed(db) && ColumnsAgree(db) && LedgerCovers(db) && DistinctTimes(db)
  }

  ghost predicate Inv(db: Db) { Consistent(db) && Mirror(db) }

  /** A new run has a fresh id and a later creation time than its siblings. */
  ghost predicate CreatesLater(db: Db, op: Op, now: Time) {
    match op
    case RunNow(id, runId) => IsLater(db, id, runId, now)
    case ClaimDue(id, _, _, runId) => IsLater(db, id, runId, now)
    case ClaimEvent(id, _, _, _, _, _, runId) => IsLater(db, id, runId, now)
    case _ => true
  }

  ghost predicate IsLater(db: Db, automation: string, runId: RunId, now: Time) {
    runId !in db.runs
    && forall id :: id in db.runs && db.runs[id].automation == automation ==> db.runs[id].createdAt < now
  }

  // ---------------------------------------------------------------- trimming

  lemma NewestIsKept(db: Db, automation: string, id: RunId)
    requires IsNewest(db, automation, id)
    ensures Kept(db, automation, db.runs[id])
  {
    assert NewerThan(RunsOf(db, automation), db.runs[id]) == {} by {
      forall x | x in RunsOf(db, automation) ensures !Newer(x, db.runs[id]) {
        var k :| k in db.runs && db.runs[k].automation == automation && db.runs[k] == x;
        assert k == id || db.runs[k].createdAt < db.runs[id].createdAt;
      }
    }
  }

  lemma TrimmedKeepsMirror(db: Db, trimmed: string, automation: string)
    requires automation in db.rows && MirrorOf(db, automation)
    ensures MirrorOf(Trimmed(db, trimmed), automation)
  {
    var t := Trimmed(db, trimmed);
    if HasRuns(db, automation) {
      var id :| IsNewest(db, automation, id) && Shows(db.rows[automation].def, db.runs[id]);
      if trimmed == automation { NewestIsKept(db, automation, id); }
      assert id in t.runs;
      assert IsNewest(t, automation, id);
    }
  }

  /** Dropping runs keeps everything but, possibly, the summary. */
  lemma FewerRuns(db: Db, t: Db)
    requires Consistent(db) && t.rows == db.rows && t.claims == db.claims
    requires forall id :: id in t.runs ==> id in db.runs && t.runs[id] == db.runs[id]
    ensures Consistent(t)
  {
  }

  lemma TrimmedKeepsInv(db: Db, automation: string)
    requires Inv(db)
    ensures Inv(Trimmed(db, automation))
  {
    var t := Trimmed(db, automation);
    hide Kept, Consistent, MirrorOf;
    FewerRuns(db, t);
    forall id | id in t.rows ensures MirrorOf(t, id) {
      TrimmedKeepsMirror(db, automation, id);
    }
  }

  lemma TrimmedAllKeepsMirror(db: Db, ids: set<string>, a: string)
    requires a in db.rows && MirrorOf(db, a)
    ensures MirrorOf(TrimmedAll(db, ids), a)
  {
    hide Kept;
    var t := TrimmedAll(db, ids);
    if HasRuns(db, a) {
      var id :| IsNewest(db, a, id) && Shows(db.rows[a].def, db.runs[id]);
      NewestIsKept(db, a, id);
      assert IsNewest(t, a, id);
    }
  }

  lemma TrimmedAllKeepsInv(db: Db, ids: set<string>)
    requires Inv(db)
    ensures Inv(TrimmedAll(db, ids))
  {
    hide Kept, Consistent, MirrorOf;
    var t := TrimmedAll(db, ids);
    FewerRuns(db, t);
    forall a | a in t.rows ensures MirrorOf(t, a) {
      TrimmedAllKeepsMirror(db, ids, a);
    }
  }

  // -------------------------------------------------------------- operations

  lemma ShownIsConsistent(db: Db, id: string, a: Automation, run: Run)
    requires Consistent(db) && id in db.rows && run.automation == id
    requires IsLater(db, id, run.id, run.createdAt)
    requires run.eventKey.Some? ==> (id, run.eventKey.value) in db.claims
    ensures Consistent(Shown(db, id, a, run))
  {
  }

  lemma ShownIsMirrored(db: Db, id: string, a: Automation, run: Run)
    requires id in db.rows && run.automation == id && IsLater(db, id, run.id, run.createdAt)
    ensures MirrorOf(Shown(db, id, a, run), id)
  {
    var s := Shown(db, id, a, run);
    assert IsNewest(s, id, run.id) && Shows(s.rows[id].def, s.runs[run.id]);
  }

  lemma StartedKeepsInv(db: Db, id: string, a: Automation, run: Run)
    requires Inv(db) && id in db.rows && run.automation == id
    requires IsLater(db, id, run.id, run.createdAt)
    requires run.eventKey.Some? ==> (id, run.eventKey.value) in db.claims
    ensures Inv(Started(db, id, a, run))
  {
    hide Consistent, MirrorOf, Trimmed;
    var s := Shown(db, id, a, run);
    ShownIsConsistent(db, id, a, run);
    forall k | k in s.rows ensures MirrorOf(s, k) {
      if k == id { ShownIsMirrored(db, id, a, run); } else { SiblingMirror(db, s, k); }
    }
    TrimmedKeepsInv(s, id);
  }

  /** An automation whose row and runs are unchanged keeps its summary. */
  lemma SiblingMirror(db: Db, s: Db, automation: string)
    requires automation in db.rows && MirrorOf(db, automation)
    requires automation in s.rows && s.rows[automation].def.lastRunAt == db.rows[automation].def.lastRunAt
    requires s.rows[automation].def.lastRunStatus == db.rows[automation].def.lastRunStatus
    requires s.rows[automation].def.lastRunError == db.rows[automation].def.lastRunError
    requires forall id :: id in s.runs && s.runs[id].automation == automation ==>
               id in db.runs && db.runs[id] == s.runs[id]
    requires forall id :: id in db.runs && db.runs[id].automation == automation ==> id in s.runs && s.runs[id] == db.runs[id]
    ensures MirrorOf(s, automation)
  {
    if HasRuns(db, automation) {
      var id :| IsNewest(db, automation, id) && Shows(db.rows[automation].def, db.runs[id]);
      assert IsNewest(s, automation, id);
    }
  }

  ghost predicate SameIdentity(x: Run, y: Run) {
    x.id == y.id && x.automation == y.automation && x.createdAt == y.createdAt && x.eventKey == y.eventKey
  }

  lemma ReportedIsConsistent(db: Db, run: Run)
    requires Consistent(db) && run.id in db.runs && SameIdentity(db.runs[run.id], run)
    ensures Consistent(Reported(db, run))
  {
    hide ApplyRunSummary;
    SummaryKeepsPlan(db.rows[run.automation].def, run);
  }

  lemma SummaryKeepsPlan(a: Automation, run: Run)
    ensures ApplyRunSummary(a, run).plan == a.plan && ApplyRunSummary(a, run).updatedAt == a.updatedAt
  {
  }

  lemma SummaryFollows(a: Automation, newest: Run, run: Run)
    requires Shows(a, newest) && (run.id == newest.id ==> run.createdAt == newest.createdAt)
    requires run.id != newest.id ==> run.createdAt < newest.createdAt
    ensures Shows(ApplyRunSummary(a, run), if run.id == newest.id then run else newest)
  {
  }

  lemma ReportedIsMirrored(db: Db, run: Run)
    requires Inv(db) && run.id in db.runs && SameIdentity(db.runs[run.id], run)
    ensures MirrorOf(Reported(db, run), run.automation)
  {
    var a := run.automation;
    var s := Reported(db, run);
    assert db.runs[run.id].automation == a && MirrorOf(db, a);
    hide Consistent, Mirror, ApplyRunSummary;
    var id :| IsNewest(db, a, id) && Shows(db.rows[a].def, db.runs[id]);
    SummaryFollows(db.rows[a].def, db.runs[id], run);
    assert IsNewest(s, a, id) && Shows(s.rows[a].def, s.runs[id]);
  }

  lemma ReportedKeepsInv(db: Db, run: Run)
    requires Inv(db) && run.id in db.runs && SameIdentity(db.runs[run.id], run)
    ensures Inv(Reported(db, run))
  {
    var s := Reported(db, run);
    assert run.automation in db.rows;
    ReportedIsConsistent(db, run);
    ReportedIsMirrored(db, run);
    hide Consistent, MirrorOf, ApplyRunSummary;
    forall k | k in s.rows && k != run.automation ensures MirrorOf(s, k) {
      OthersMirror(db, run, k);
    }
  }

  lemma OthersMirror(db: Db, run: Run, k: string)
    requires run.id in db.runs && SameIdentity(db.runs[run.id], run)
    requires k in db.rows && k != run.automation && MirrorOf(db, k)
    ensures MirrorOf(Reported(db, run), k)
  {
    hide MirrorOf, ApplyRunSummary;
    SiblingMirror(db, Reported(db, run), k);
  }

  /** The runs a restart has still to visit, as the query returned them. */
  ghost predicate Unvisited(db: Db, ordered: seq<Run>) {
    && (forall i :: 0 <= i < |ordered| ==> ordered[i].id in db.runs && db.runs[ordered[i].id] == ordered[i])
    && forall i, j :: 0 <= i < j < |ordered| ==> ordered[i].id != ordered[j].id
  }

  lemma RecoverOneKeepsInv(db: Db, ordered: seq<Run>, now: Time)
    requires Inv(db) && Unvisited(db, ordered) && ordered != []
    ensures Inv(RecoverOne(db, ordered[0], now)) && Unvisited(RecoverOne(db, ordered[0], now), ordered[1..])
  {
    hide Inv;
    var first := ordered[0];
    var r := Recovered(first, now);
    assert SameIdentity(first, r);
    hide Recovered, ApplyRunSummary;
    if r != first { ReportedKeepsInv(db, r); }
  }

  lemma {:induction false} RecoverAllKeepsInv(db: Db, ordered: seq<Run>, now: Time)
    requires Inv(db) && Unvisited(db, ordered)
    ensures Inv(RecoverAll(db, ordered, now))
    decreases |ordered|
  {
    hide Inv, Unvisited, RecoverOne;
    if ordered != [] {
      RecoverOneKeepsInv(db, ordered, now);
      RecoverAllKeepsInv(RecoverOne(db, ordered[0], now), ordered[1..], now);
    }
  }

  lemma ListedArePending(db: Db, startedBefore: Time, ordered: seq<Run>)
    requires WellKeyed(db) && ListsUpTo(db, startedBefore, ordered)
    ensures Unvisited(db, ordered)
  {
    forall i | 0 <= i < |ordered| ensures ordered[i].id in db.runs && db.runs[ordered[i].id] == ordered[i] {
      assert ordered[i] in Elements(ordered);
    }
    forall i, j | 0 <= i < j < |ordered| ensures ordered[i].id != ordered[j].id {
      assert Newer(ordered[j], ordered[i]);
    }
  }

  lemma RecoverKeepsInv(db: Db, startedBefore: Time, ordered: seq<Run>, now: Time)
    requires Inv(db) && ListsUpTo(db, startedBefore, ordered)
    ensures Inv(RecoverWith(db, ordered, now))
  {
    ListedArePending(db, startedBefore, ordered);
    hide Inv, Unvisited, RecoverAll, TrimmedAll, Interrupted;
    RecoverAllKeepsInv(db, ordered, now);
    TrimmedAllKeepsInv(RecoverAll(db, ordered, now), Interrupted(db, ordered, now));
  }

  lemma FreshIsMirrored(db: Db, db': Db, id: string)
    requires WellKeyed(db) && id !in db.rows && db'.runs == db.runs
    requires id in db'.rows && db'.rows[id].def.lastRunAt.None?
    ensures MirrorOf(db', id)
  {
  }

  lemma UpsertKeepsInv(db: Db, id: string, plan: Plan, now: Time, db': Db)
    requires Inv(db) && Step(db, Upsert(id, plan), now, db')
    ensures Inv(db')
  {
    hide MirrorOf;
    if id !in db.rows && id in db'.rows { FreshIsMirrored(db, db', id); }
    forall k | k in db'.rows ensures MirrorOf(db', k) {
      if k in db.rows { SiblingMirror(db, db', k); }
    }
  }

  lemma DeleteKeepsInv(db: Db, id: string, now: Time, db': Db)
    requires Inv(db) && Step(db, Delete(id), now, db')
    ensures Inv(db')
  {
    DeleteIsConsistent(db, id, now, db');
    hide Consistent, MirrorOf;
    forall k | k in db'.rows ensures MirrorOf(db', k) {
      SiblingMirror(db, db', k);
    }
  }

  lemma DeleteIsConsistent(db: Db, id: string, now: Time, db': Db)
    requires Consistent(db) && Step(db, Delete(id), now, db')
    ensures Consistent(db')
  {
  }

  /** After every transaction the columns, the ledger and the summary agree with the
      stored definitions and runs. */
  lemma StepKeepsInv(db: Db, op: Op, now: Time, db': Db)
    requires Inv(db) && Step(db, op, now, db') && CreatesLater(db, op, now)
    ensures Inv(db')
  {
    hide Inv;
    match op
    case Upsert(id, plan) => UpsertKeepsInv(db, id, plan, now, db');
    case Delete(id) => DeleteKeepsInv(db, id, now, db');
    case RunNow(id, runId) =>
      if id in db.rows {
        var a := db.rows[id].def;
        StartedKeepsInv(db, id, a, NewRun(runId, id, Manual, now, now, a.plan.prompt));
      }
    case ClaimDue(id, expected, next, runId) =>
      if IsDue(db, id, expected, next, now) {
        var a := db.rows[id].def;
        StartedKeepsInv(db, id, a.(plan := a.plan.(nextRunAt := next)), DueRun(db, id, expected, now, runId));
      }
    case ClaimEvent(id, key, kind, event, scheduledFor, prompt, runId) =>
      if IsNewEvent(db, id, key, kind, event, prompt) {
        var claimed := db.(claims := db.claims + {(id, key)});
        MoreClaims(db, claimed);
        StartedKeepsInv(claimed, id, db.rows[id].def,
                        EventRun(id, key, kind, event, scheduledFor, prompt, now, runId));
      }
    case UpdateRun(runId, status, sessionId, error) =>
      if runId in db.runs && db.runs[runId].automation in db.rows {
        var run := UpdatedRun(db.runs[runId], status, sessionId, error, now);
        KeyedRun(db, runId);
        ReportedKeepsInv(db, run);
        TrimmedKeepsInv(Reported(db, run), run.automation);
      }
    case Recover(startedBefore) =>
      var ordered :| ListsUpTo(db, startedBefore, ordered) && db' == RecoverWith(db, ordered, now);
      RecoverKeepsInv(db, startedBefore, ordered, now);
    case Reopen => MoreClaims(db, db');
  }

  lemma KeyedRun(db: Db, id: RunId)
    requires Inv(db) && id in db.runs
    ensures db.runs[id].id == id
  {
  }

  lemma MoreClaims(db: Db, db': Db)
    requires Inv(db) && db'.rows == db.rows && db'.runs == db.runs && db.claims <= db'.claims
    ensures Inv(db')
  {
    forall k | k in db'.rows ensures MirrorOf(db', k) {
      SiblingMirror(db, db', k);
    }
  }

  // -------------------------------------------------------------- whole runs

  datatype Moment = Moment(op: Op, now: Time)

  /** States and the operations between them, in the order they took the lock. */
  ghost predicate Behaviour(states: seq<Db>, trace: seq<Moment>) {
    && |states| == |trace| + 1
    && forall i :: 0 <= i < |trace| ==> Step(states[i], trace[i].op, trace[i].now, states[i + 1])
  }

  ghost predicate Later(states: seq<Db>, trace: seq<Moment>)
    requires |states| == |trace| + 1
  {
    forall i :: 0 <= i < |trace| ==> CreatesLater(states[i], trace[i].op, trace[i].now)
  }

  /** From an empty database, with one strictly increasing clock for new runs, the
      summary always mirrors the newest run and the columns the definition. */
  lemma {:induction false} InvHoldsThroughout(states: seq<Db>, trace: seq<Moment>, i: nat)
    requires Behaviour(states, trace) && Later(states, trace) && Inv(states[0]) && i < |states|
    ensures Inv(states[i])
    decreases i
  {
    if i > 0 {
      InvHoldsThroughout(states, trace, i - 1);
      StepKeepsInv(states[i - 1], trace[i - 1].op, trace[i - 1].now, states[i]);
    }
  }

  lemma EmptyIsFine()
    ensures Inv(Db(map[], map[], {}))
  {
  }

  // ------------------------------------------------------- scheduled claims

  /** Step `i` claims an occurrence of the automation. */
  ghost predicate ClaimsAt(states: seq<Db>, trace: seq<Moment>, i: nat, id: string)
    requires |states| == |trace| + 1 && i < |trace|
  {
    var op := trace[i].op;
    op.ClaimDue? && op.id == id && IsDue(states[i], id, op.expected, op.next, trace[i].now)
  }

  ghost predicate Monotone(trace: seq<Moment>) {
    forall i, j :: 0 <= i < j < |trace| ==> trace[i].now <= trace[j].now
  }

  lemma TrimmedKeepsRows(db: Db, id: string)
    ensures Trimmed(db, id).rows == db.rows && Trimmed(db, id).claims == db.claims
  {
  }

  lemma {:induction false} RecoverKeepsPlans(db: Db, ordered: seq<Run>, now: Time)
    requires ColumnsAgree(db)
    ensures var s := RecoverAll(db, ordered, now);
            && ColumnsAgree(s) && s.claims == db.claims && s.rows.Keys == db.rows.Keys
            && forall id :: id in db.rows ==> s.rows[id].def.plan == db.rows[id].def.plan
    decreases |ordered|
  {
    if ordered != [] { RecoverKeepsPlans(RecoverOne(db, ordered[0], now), ordered[1..], now); }
  }

  /** Step `k` saves the automation: the plan passed the check against the clock the
      edit read. */
  ghost predicate SavesAt(trace: seq<Moment>, k: nat, id: string)
    requires k < |trace|
  {
    var op := trace[k].op;
    op.Upsert? && op.id == id && trace[k].now < op.plan.nextRunAt
  }

  /** What one step may do to the next occurrence of an automation. */
  lemma NextOccurrence(db: Db, op: Op, now: Time, db': Db, id: string)
    requires ColumnsAgree(db) && Step(db, op, now, db')
    ensures ColumnsAgree(db')
    ensures id in db'.rows ==>
              if op.Upsert? && op.id == id && now < op.plan.nextRunAt then db'.rows[id].nextRunAt == op.plan.nextRunAt
              else
                && id in db.rows
                && db'.rows[id].nextRunAt == if op.ClaimDue? && op.id == id && IsDue(db, id, op.expected, op.next, now)
                                             then op.next else db.rows[id].nextRunAt
  {
    hide Trimmed, DueRun, EventRun, ApplyRunSummary, UpdatedRun;
    forall t: Db, a: string ensures Trimmed(t, a).rows == t.rows { TrimmedKeepsRows(t, a); }
    match op
    case Recover(startedBefore) =>
      var ordered :| ListsUpTo(db, startedBefore, ordered) && db' == RecoverWith(db, ordered, now);
      RecoverKeepsPlans(db, ordered, now);
    case UpdateRun(runId, status, sessionId, error) =>
      if runId in db.runs && db.runs[runId].automation in db.rows {
        var run := UpdatedRun(db.runs[runId], status, sessionId, error, now);
        if run.automation in db.rows { SummaryKeepsPlan(db.rows[run.automation].def, run); }
      }
    case _ =>
  }

  /** After a claim the next occurrence stays beyond `bound`, if no save since names an
      earlier one. */
  lemma {:induction false} ColumnStaysBeyond(states: seq<Db>, trace: seq<Moment>, i: nat, j: nat, id: string)
    requires Behaviour(states, trace) && ColumnsAgree(states[0])
    requires i < j < |states| && ClaimsAt(states, trace, i, id)
    requires forall k :: i < k < j && SavesAt(trace, k, id) ==> trace[i].op.expected < trace[k].op.plan.nextRunAt
    ensures id in states[j].rows ==> trace[i].op.expected < states[j].rows[id].nextRunAt
    decreases j
  {
    ColumnsHoldThroughout(states, trace, j - 1);
    NextOccurrence(states[j - 1], trace[j - 1].op, trace[j - 1].now, states[j], id);
    hide Step, ColumnsAgree;
    if i < j - 1 {
      ColumnStaysBeyond(states, trace, i, j - 1, id);
      assert SavesAt(trace, j - 1, id) ==> trace[i].op.expected < trace[j - 1].op.plan.nextRunAt;
    }
  }

  lemma {:induction false} ColumnsHoldThroughout(states: seq<Db>, trace: seq<Moment>, i: nat)
    requires Behaviour(states, trace) && ColumnsAgree(states[0]) && i < |states|
    ensures ColumnsAgree(states[i])
    decreases i
  {
    if i > 0 {
      ColumnsHoldThroughout(states, trace, i - 1);
      NextOccurrence(states[i - 1], trace[i - 1].op, trace[i - 1].now, states[i], "");
    }
  }

  /** Scheduled claims of an automation have strictly increasing times, whoever makes
      them and whatever else happens in between, so none is made twice, as long as every
      save after the first names an occurrence beyond it. */
  lemma OccurrencesIncrease(states: seq<Db>, trace: seq<Moment>, i: nat, j: nat, id: string)
    requires Behaviour(states, trace) && ColumnsAgree(states[0])
    requires i < j < |trace| && ClaimsAt(states, trace, i, id) && ClaimsAt(states, trace, j, id)
    requires forall k :: i < k < j && SavesAt(trace, k, id) ==> trace[i].op.expected < trace[k].op.plan.nextRunAt
    ensures trace[i].op.expected < trace[j].op.expected
  {
    ColumnStaysBeyond(states, trace, i, j, id);
  }

  /** A save checks its plan against the clock, so one clock read in the order of the
      transactions is enough. */
  lemma OccurrencesIncreaseUnderOneClock(states: seq<Db>, trace: seq<Moment>, i: nat, j: nat, id: string)
    requires Behaviour(states, trace) && Monotone(trace) && ColumnsAgree(states[0])
    requires i < j < |trace| && ClaimsAt(states, trace, i, id) && ClaimsAt(states, trace, j, id)
    ensures trace[i].op.expected < trace[j].op.expected
  {
    forall k | i < k < j && SavesAt(trace, k, id) ensures trace[i].op.expected < trace[k].op.plan.nextRunAt {
      assert trace[i].op.expected <= trace[i].now <= trace[k].now;
    }
    OccurrencesIncrease(states, trace, i, j, id);
  }

  /** The last save of the automation between steps `i` and `j`, or `i` if there is none. */
  ghost function LastSave(trace: seq<Moment>, i: nat, j: nat, id: string): (k: nat)
    requires i < j <= |trace|
    ensures i <= k < j && (k == i || SavesAt(trace, k, id))
    ensures forall n :: k < n < j ==> !SavesAt(trace, n, id)
    decreases j
  {
    if j - 1 == i then i else if SavesAt(trace, j - 1, id) then j - 1 else LastSave(trace, i, j - 1, id)
  }

  /** Until the next claim, the next occurrence is what the claim or the last save since
      made it. */
  lemma {:induction false} ColumnIsTheLastSave(states: seq<Db>, trace: seq<Moment>, i: nat, j: nat, id: string)
    requires Behaviour(states, trace) && ColumnsAgree(states[0])
    requires i < j < |states| && ClaimsAt(states, trace, i, id) && id in states[j].rows
    requires forall k :: i < k < j ==> !ClaimsAt(states, trace, k, id)
    ensures var last := LastSave(trace, i, j, id);
            states[j].rows[id].nextRunAt == if last == i then trace[i].op.next else trace[last].op.plan.nextRunAt
    decreases j
  {
    ColumnsHoldThroughout(states, trace, j - 1);
    NextOccurrence(states[j - 1], trace[j - 1].op, trace[j - 1].now, states[j], id);
    hide Step, ColumnsAgree;
    if i < j - 1 {
      assert !ClaimsAt(states, trace, j - 1, id);
      if !SavesAt(trace, j - 1, id) { ColumnIsTheLastSave(states, trace, i, j - 1, id); }
    }
  }

  /** The exact condition: of two successive claims, the second is of a later occurrence
      unless the last save between them, if any, names one no later than the first. */
  lemma NextClaimIsLaterIff(states: seq<Db>, trace: seq<Moment>, i: nat, j: nat, id: string)
    requires Behaviour(states, trace) && ColumnsAgree(states[0])
    requires i < j < |trace| && ClaimsAt(states, trace, i, id) && ClaimsAt(states, trace, j, id)
    requires forall k :: i < k < j ==> !ClaimsAt(states, trace, k, id)
    ensures var last := LastSave(trace, i, j, id);
            trace[i].op.expected < trace[j].op.expected <==>
              last == i || trace[i].op.expected < trace[last].op.plan.nextRunAt
  {
    ColumnIsTheLastSave(states, trace, i, j, id);
  }

  /** The clock of an edit is read before the lock is taken. An edit that commits
      after a claim at `last` reopens that occurrence or an earlier one exactly when
      it names a next run no later than `last`. */
  lemma EditReopensIff(db: Db, id: string, plan: Plan, readAt: Time, last: Time, db': Db)
    requires Step(db, Upsert(id, plan), readAt, db') && readAt < plan.nextRunAt
    ensures (exists expected: Time, next: Time, now: Time :: expected <= last <= now && IsDue(db', id, expected, next, now))
            <==> plan.enabled && HasTimeTrigger(db'.rows[id].def) && plan.nextRunAt <= last
  {
    var n := plan.nextRunAt;
    assert db'.rows[id].nextRunAt == n && db'.rows[id].enabled == plan.enabled;
    if plan.enabled && HasTimeTrigger(db'.rows[id].def) && n <= last {
      assert IsDue(db', id, n, n + 1, last);
    }
  }

  /** So a slow edit can make the same occurrence run twice: the plan is checked at
      10, the claim for 20 runs at 21, and the edit then commits with 20 again. */
  lemma SlowEditRepeatsAnOccurrence()
    ensures exists states: seq<Db>, trace: seq<Moment> ::
              && Behaviour(states, trace) && ColumnsAgree(states[0]) && |trace| == 4
              && trace[2].now < trace[1].now
              && ClaimsAt(states, trace, 1, "a") && ClaimsAt(states, trace, 3, "a")
              && trace[1].op.expected == trace[3].op.expected
  {
    var plan := Plan("p", [Trigger("time", "")], 5, true, 20, "");
    var s0 := Db(map[], map[], {});
    var s1, s2 := EditThenClaim(s0, "a", plan, 30, 1, 21);
    var s3, s4 := EditThenClaim(s2, "a", plan, 30, 2, 22);
    var edit := Moment(Upsert("a", plan), 10);
    var states := [s0, s1, s2, s3, s4];
    var trace := [edit, Moment(ClaimDue("a", 20, 30, 1), 21), edit, Moment(ClaimDue("a", 20, 30, 2), 22)];
    assert ColumnsAgree(s0);
    hide Step, IsDue, ColumnsAgree;
    assert Behaviour(states, trace);
    assert ClaimsAt(states, trace, 1, "a") && ClaimsAt(states, trace, 3, "a");
  }

  /** An edit read at 10 for an occurrence at 20, and a claim of that occurrence. */
  lemma EditThenClaim(s0: Db, id: string, plan: Plan, next: Time, runId: RunId, now: Time)
    returns (s1: Db, s2: Db)
    requires plan.triggers == [Trigger("time", "")] && plan.enabled && plan.nextRunAt == 20
    requires 20 <= now && 20 < next
    ensures Step(s0, Upsert(id, plan), 10, s1)
    ensures IsDue(s1, id, 20, next, now)
    ensures Step(s1, ClaimDue(id, 20, next, runId), now, s2)
  {
    hide Started, DueRun;
    s1 := WithAutomation(s0, id, Upserted(s0, id, plan, 10));
    assert Trigger("time", "") in s1.rows[id].def.plan.triggers;
    var a := s1.rows[id].def;
    s2 := Started(s1, id, a.(plan := a.plan.(nextRunAt := next)), DueRun(s1, id, 20, now, runId));
  }

  // ------------------------------------------------------------ event claims

  ghost predicate ClaimsEventAt(states: seq<Db>, trace: seq<Moment>, i: nat, id: string, key: string)
    requires |states| == |trace| + 1 && i < |trace|
  {
    var op := trace[i].op;
    op.ClaimEvent? && op.id == id && op.key == key
    && IsNewEvent(states[i], id, key, op.kind, op.event, op.prompt)
  }

  lemma {:induction false} RecoverKeepsClaims(db: Db, ordered: seq<Run>, now: Time)
    ensures RecoverAll(db, ordered, now).claims == db.claims
    decreases |ordered|
  {
    if ordered != [] { RecoverKeepsClaims(RecoverOne(db, ordered[0], now), ordered[1..], now); }
  }

  /** Only deleting the automation takes a key out of the ledger; trimming does not. */
  lemma LedgerOnlyGrows(db: Db, op: Op, now: Time, db': Db, id: string)
    requires Step(db, op, now, db') && op != Delete(id)
    ensures forall key :: (id, key) in db.claims ==> (id, key) in db'.claims
  {
    hide Kept, DueRun, EventRun;
    if op.Recover? {
      var ordered :| ListsUpTo(db, op.startedBefore, ordered) && db' == RecoverWith(db, ordered, now);
      RecoverKeepsClaims(db, ordered, now);
    }
  }

  lemma {:induction false} KeyStays(states: seq<Db>, trace: seq<Moment>, i: nat, j: nat, id: string, key: string)
    requires Behaviour(states, trace) && i <= j < |states| && (id, key) in states[i].claims
    requires forall k :: i <= k < j ==> trace[k].op != Delete(id)
    ensures (id, key) in states[j].claims
    decreases j - i
  {
    if i < j {
      LedgerOnlyGrows(states[i], trace[i].op, trace[i].now, states[i + 1], id);
      KeyStays(states, trace, i + 1, j, id, key);
    }
  }

  /** An event is claimed at most once while its automation exists. */
  lemma EventClaimedOnce(states: seq<Db>, trace: seq<Moment>, i: nat, j: nat, id: string, key: string)
    requires Behaviour(states, trace) && i < j < |trace|
    requires ClaimsEventAt(states, trace, i, id, key)
    requires forall k :: i <= k < j ==> trace[k].op != Delete(id)
    ensures !ClaimsEventAt(states, trace, j, id, key)
  {
    assert (id, key) in states[i + 1].claims;
    KeyStays(states, trace, i + 1, j, id, key);
  }

  /** After a restart, a key that any stored run carries is never claimed again, also
      for histories written before the ledger existed. */
  lemma BackfillCoversHistory(states: seq<Db>, trace: seq<Moment>, run: RunId, j: nat)
    requires Behaviour(states, trace) && 0 < j < |trace| && trace[0].op == Reopen
    requires run in states[0].runs && states[0].runs[run].eventKey.Some?
    requires forall k :: 0 <= k < j ==> trace[k].op != Delete(states[0].runs[run].automation)
    ensures var r := states[0].runs[run];
            !ClaimsEventAt(states, trace, j, r.automation, r.eventKey.value)
  {
    var r := states[0].runs[run];
    assert (r.automation, r.eventKey.value) in states[1].claims;
    KeyStays(states, trace, 1, j, r.automation, r.eventKey.value);
  }

  // ---------------------------------------------------------------- history

  lemma {:induction false} SortedExists(all: set<Run>) returns (sorted: seq<Run>)
    requires UniqueIds(all)
    ensures SortedNewestFirst(sorted) && Elements(sorted) == all
    decreases |all|
  {
    if all == {} {
      sorted := [];
      assert SortedNewestFirst(sorted);
    } else {
      hide Newer, SortedNewestFirst;
      var r := NewestExists(all);
      var rest := SortedExists(all - {r});
      sorted := [r] + rest;
      Prepended(r, rest);
    }
  }

  lemma Prepended(r: Run, rest: seq<Run>)
    requires SortedNewestFirst(rest) && forall x :: x in Elements(rest) ==> Newer(r, x)
    ensures SortedNewestFirst([r] + rest) && Elements([r] + rest) == {r} + Elements(rest)
  {
    hide Newer;
    assert forall k :: 0 <= k < |rest| ==> rest[k] in Elements(rest);
  }

  /** Trimming an automation keeps every unfinished run and the hundred newest, and
      keeps nothing else of it; a run it drops still has a hundred newer ones. */
  lemma TrimKeepsExactly(db: Db, automation: string, id: RunId)
    requires WellKeyed(db) && id in db.runs && db.runs[id].automation == automation
    ensures var t, r := Trimmed(db, automation), db.runs[id];
            && (!Terminal(r.status) ==> id in t.runs)
            && (|NewerThan(RunsOf(db, automation), r)| < MAX_RUNS_PER_AUTOMATION ==> id in t.runs)
            && (id !in t.runs ==>
                 Terminal(r.status) && |NewerThan(RunsOf(t, automation), r)| >= MAX_RUNS_PER_AUTOMATION)
            && (id in t.runs && Terminal(r.status) ==>
                 |NewerThan(RunsOf(t, automation), r)| < MAX_RUNS_PER_AUTOMATION)
  {
    var t, r, all := Trimmed(db, automation), db.runs[id], RunsOf(db, automation);
    var kept := RunsOf(t, automation);
    assert forall x :: x in kept ==> x in all by {
      forall x | x in kept ensures x in all {
        var k :| k in t.runs && t.runs[k].automation == automation && t.runs[k] == x;
        assert k in db.runs && db.runs[k] == x;
      }
    }
    if id !in t.runs {
      var sorted := SortedExists(all);
      assert r in all && r in Elements(sorted);
      var i :| 0 <= i < |sorted| && sorted[i] == r;
      RankIsIndex(sorted, i);
      var newest := sorted[..MAX_RUNS_PER_AUTOMATION];
      forall x | x in Elements(newest) ensures x in NewerThan(kept, r) {
        var k :| 0 <= k < MAX_RUNS_PER_AUTOMATION && sorted[k] == x;
        RankIsIndex(sorted, k);
        assert x in Elements(sorted);
        assert x.id in t.runs && t.runs[x.id] == x;
      }
      SeqToSet(newest);
      Subset(Elements(newest), NewerThan(kept, r));
    } else if Terminal(r.status) {
      assert NewerThan(kept, r) <= NewerThan(all, r);
      Subset(NewerThan(kept, r), NewerThan(all, r));
    }
  }

  lemma {:induction false} Subset<T>(a: set<T>, b: set<T>)
    requires a <= b
    ensures |a| <= |b|
    decreases |a|
  {
    if a != {} {
      var x :| x in a;
      Subset(a - {x}, b - {x});
    }
  }
}
