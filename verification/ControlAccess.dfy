/** What each operation of `src-tauri/src/control.rs` leaves in its tables, and who may use
    the app through them, over every run. */
module ControlAccess {
  import opened Wrappers
  import opened Control

  // ------------------------------------------------------------------- tables

  /** The tables agree on every session but one. */
  ghost predicate SameBut(r: Registry, s: Registry, session: string) {
    && s.pending == r.pending
    && forall id :: id != session ==>
         && (id in s.grants <==> id in r.grants) && (id in r.grants ==> s.grants[id] == r.grants[id])
         && (id in s.appGrants <==> id in r.appGrants) && (id in r.appGrants ==> s.appGrants[id] == r.appGrants[id])
         && (id in s.workers <==> id in r.workers) && (id in r.workers ==> s.workers[id] == r.workers[id])
         && (id in s.scratch <==> id in r.scratch) && (id in r.scratch ==> s.scratch[id] == r.scratch[id])
         && (id in s.active <==> id in r.active) && (id in r.active ==> s.active[id] == r.active[id])
  }

  /** A session that is neither lead nor worker gets a token for the app, in the place it
      now works in; a token it has is kept. */
  ghost predicate AppGrantFollows(r: Registry, s: Registry, session: string, window: string, cwd: Path, token: string) {
    if session !in r.workers && session !in r.grants then
      && session in s.appGrants && s.appGrants[session].session == session
      && s.appGrants[session].window == window && s.appGrants[session].cwd == cwd
      && s.appGrants[session].token == if session in r.appGrants then r.appGrants[session].token else token
    else
      && (session in s.appGrants <==> session in r.appGrants)
      && (session in r.appGrants ==> s.appGrants[session] == r.appGrants[session])
  }

  lemma AppGrantIsKept(r: Registry, session: string, window: string, cwd: Path, token: string)
    ensures var s := WithAppGrant(r, session, window, cwd, token);
            && s.grants == r.grants && s.workers == r.workers && s.scratch == r.scratch && s.active == r.active
            && SameBut(r, s, session) && AppGrantFollows(r, s, session, window, cwd, token)
  {
  }

  lemma OneEntry(r: Registry, s: Registry, s': Registry, op: Op)
    requires op.Authorize? || op.Enable?
    requires SameBut(r, s, op.session) && AppGrantFollows(r, s, op.session, op.window, op.cwd, op.appToken)
    requires s'.appGrants == s.appGrants && s'.workers == s.workers && s'.scratch == s.scratch && s'.pending == s.pending
    requires s'.grants == s.grants || (op.session in s'.grants && s'.grants == s.grants[op.session := s'.grants[op.session]])
    requires s'.active == s.active || (op.session in s'.active && s'.active == s.active[op.session := s'.active[op.session]])
    ensures SameBut(r, s', op.session) && AppGrantFollows(r, s', op.session, op.window, op.cwd, op.appToken)
  {
  }

  lemma AuthorizeGuard(r: Registry, op: Op)
    requires Keyed(r) && FoundOk(r, op) && op.Authorize?
    ensures Accepted(r, op) <==>
              || (forall g :: g in r.grants ==> !PathsOverlap(r.grants[g].cwd, op.cwd))
              || (op.found.Some? && op.found.value in r.grants && r.grants[op.found.value].window == op.window
                  && LeadsOrWorksFor(r, op.session, op.found.value))
  {
    hide PathsOverlap;
  }

  lemma EnableGuard(r: Registry, op: Op)
    requires Keyed(r) && op.Enable?
    ensures Accepted(r, op) <==>
              && (forall t :: t in r.active && PathsOverlap(r.active[t].cwd, op.cwd) ==> t == op.session)
              && (forall g :: g in r.grants && PathsOverlap(r.grants[g].cwd, op.cwd) ==>
                    g == op.session && r.grants[g].window == op.window)
  {
    hide PathsOverlap;
  }

  /** A turn may begin where no checkout is reserved, or for the lead it met or a worker of
      it, in the window of that lead. It is recorded with where it works, and with the app
      only if that was asked for and its session is neither lead nor worker. */
  lemma TurnIsRecorded(r: Registry, op: Op)
    requires Keyed(r) && FoundOk(r, op) && op.Authorize?
    ensures var s, session := Step(r, op), op.session;
            && (Accepted(r, op) <==>
                  || (forall g :: g in r.grants ==> !PathsOverlap(r.grants[g].cwd, op.cwd))
                  || (op.found.Some? && op.found.value in r.grants && r.grants[op.found.value].window == op.window
                      && LeadsOrWorksFor(r, session, op.found.value)))
            && (Accepted(r, op) ==>
                  && SameBut(r, s, session) && s.grants == r.grants && s.workers == r.workers && s.scratch == r.scratch
                  && session in s.active && s.active[session].window == op.window && s.active[session].cwd == op.cwd
                  && (s.active[session].appAllowed <==> op.appAccess && session !in r.workers && session !in r.grants)
                  && AppGrantFollows(r, s, session, op.window, op.cwd, op.appToken))
  {
    AuthorizeGuard(r, op);
    AppGrantIsKept(r, op.session, op.window, op.cwd, op.appToken);
    hide PathsOverlap, Accepted, WithAppGrant, FoundOk, SameBut, AppGrantFollows;
    if Accepted(r, op) { OneEntry(r, WithAppGrant(r, op.session, op.window, op.cwd, op.appToken), Step(r, op), op); }
  }

  /** A checkout is reserved only if nobody else works in it or holds a part of it, and no
      other window holds it for the same session. */
  lemma CheckoutIsReserved(r: Registry, op: Op)
    requires Keyed(r) && op.Enable?
    ensures var s, session := Step(r, op), op.session;
            && (Accepted(r, op) <==>
                  && (forall t :: t in r.active && PathsOverlap(r.active[t].cwd, op.cwd) ==> t == session)
                  && (forall g :: g in r.grants && PathsOverlap(r.grants[g].cwd, op.cwd) ==>
                        g == session && r.grants[g].window == op.window))
            && (Accepted(r, op) ==>
                  && SameBut(r, s, session) && s.workers == r.workers && s.scratch == r.scratch && s.active == r.active
                  && session in s.grants && s.grants[session] == Grant(op.window, session, op.cwd, op.token)
                  && AppGrantFollows(r, s, session, op.window, op.cwd, op.appToken))
  {
    EnableGuard(r, op);
    AppGrantIsKept(r, op.session, op.window, op.cwd, op.appToken);
    hide PathsOverlap, Accepted, WithAppGrant, FoundOk, SameBut, AppGrantFollows;
    if Accepted(r, op) { OneEntry(r, WithAppGrant(r, op.session, op.window, op.cwd, op.appToken), Step(r, op), op); }
  }

  /** A lead, in its window, hires any session, which loses its token for the app. */
  lemma WorkerIsAttached(r: Registry, op: Op)
    requires op.Attach?
    ensures var s, session := Step(r, op), op.session;
            && (Accepted(r, op) <==> op.lead in r.grants && r.grants[op.lead].window == op.window)
            && (Accepted(r, op) ==>
                  && SameBut(r, s, session) && s.grants == r.grants && s.active == r.active
                  && session in s.workers && s.workers[session] == op.lead && session !in s.appGrants
                  && session in s.scratch && s.scratch[session] == op.path)
  {
  }

  /** Giving up a checkout, in its window, dismisses the workers of its lead. */
  lemma CheckoutIsGivenUp(r: Registry, op: Op)
    requires op.Disable?
    ensures var s := Step(r, op);
            && (Accepted(r, op) <==> op.session in r.grants && r.grants[op.session].window == op.window)
            && (Accepted(r, op) ==>
                  && s.grants.Keys == r.grants.Keys - {op.session} && s.appGrants == r.appGrants
                  && s.active == r.active && s.pending == r.pending
                  && (forall id :: id in s.workers <==> id in r.workers && r.workers[id] != op.session)
                  && (forall id :: id in s.scratch <==> id in r.scratch && id in s.workers)
                  && (forall id :: id in s.grants ==> s.grants[id] == r.grants[id])
                  && (forall id :: id in s.workers ==> s.workers[id] == r.workers[id])
                  && (forall id :: id in s.scratch ==> s.scratch[id] == r.scratch[id]))
  {
  }

  /** A turn that is over, and nothing else, goes. */
  lemma TurnIsOver(r: Registry, op: Op)
    requires op.Finished?
    ensures Accepted(r, op) && Step(r, op) == r.(active := Step(r, op).active)
    ensures forall id :: id in Step(r, op).active <==> id in r.active && id != op.session
    ensures forall id :: id in Step(r, op).active ==> Step(r, op).active[id] == r.active[id]
  {
  }

  /** Whom a window takes with it: the sessions that hold a checkout or a token of it or
      work in it, and the workers of its leads. */
  ghost predicate GoesWith(r: Registry, window: string, id: string) {
    || (id in r.grants && r.grants[id].window == window)
    || (id in r.appGrants && r.appGrants[id].window == window)
    || (id in r.active && r.active[id].window == window)
    || (id in r.workers && r.workers[id] in r.grants && r.grants[r.workers[id]].window == window)
  }

  /** Exactly they go, from every table, with the requests of the window. */
  lemma WindowTakesExactly(r: Registry, window: string, id: string)
    requires Keyed(r)
    ensures var s := Step(r, CloseWindow(window));
            && (id in s.grants <==> id in r.grants && !GoesWith(r, window, id))
            && (id in s.appGrants <==> id in r.appGrants && !GoesWith(r, window, id))
            && (id in s.workers <==> id in r.workers && !GoesWith(r, window, id))
            && (id in s.scratch <==> id in r.scratch && !GoesWith(r, window, id))
            && (id in s.active <==> id in r.active && !GoesWith(r, window, id))
            && (id in s.grants ==> s.grants[id] == r.grants[id])
            && (id in s.appGrants ==> s.appGrants[id] == r.appGrants[id])
            && (id in s.workers ==> s.workers[id] == r.workers[id])
            && (id in s.scratch ==> s.scratch[id] == r.scratch[id])
            && (id in s.active ==> s.active[id] == r.active[id])
            && (forall q :: q in s.pending <==> q in r.pending && r.pending[q] != window)
            && (forall q :: q in s.pending ==> s.pending[q] == r.pending[q])
  {
    var ids := WindowSessions(r, window);
    assert id in ids <==> GoesWith(r, window, id) by {
      LeadsAreGrants(r, window);
    }
    hide WindowSessions, GoesWith;
  }

  lemma LeadsAreGrants(r: Registry, window: string)
    requires Keyed(r)
    ensures forall id :: id in SessionsOf(r.grants, window) <==> id in r.grants && r.grants[id].window == window
    ensures forall id :: id in SessionsOf(r.appGrants, window) <==> id in r.appGrants && r.appGrants[id].window == window
  {
  }

  // ---------------------------------------------------------------- app access

  /** Step `k` began the turn of `session` in `window` with the app. */
  ghost predicate OptsIn(r: Registry, ops: seq<Op>, k: nat, session: string, window: string)
    requires k < |ops|
  {
    var before, op := Before(r, ops, k), ops[k];
    && op.Authorize? && op.session == session && op.window == window && op.appAccess
    && Accepted(before, op) && session !in before.workers && session !in before.grants
  }

  /** Step `k` may end or replace the turn of `session`. */
  ghost predicate EndsTurn(r: Registry, ops: seq<Op>, k: nat, session: string)
    requires k < |ops|
  {
    var before, op := Before(r, ops, k), ops[k];
    || op == Finished(session)
    || (op.Authorize? && op.session == session && Accepted(before, op))
    || (op.CloseWindow? && GoesWith(before, op.window, session))
  }

  lemma TurnStaysOrIsNew(r: Registry, ops: seq<Op>, k: nat, session: string)
    requires Keyed(r) && GrantsApart(r) && FoundThroughout(r, ops) && k < |ops|
    ensures var s, s' := Before(r, ops, k), Before(r, ops, k + 1);
            && (!EndsTurn(r, ops, k, session) ==>
                  (session in s'.active <==> session in s.active)
                  && (session in s.active ==> s'.active[session] == s.active[session]))
            && (EndsTurn(r, ops, k, session) ==>
                  (session in s'.active ==>
                     ops[k].Authorize? && s'.active[session].window == ops[k].window
                     && (s'.active[session].appAllowed <==> OptsIn(r, ops, k, session, ops[k].window))))
  {
    var s, op := Before(r, ops, k), ops[k];
    GrantsThroughout(r, ops, k);
    RunStep(r, ops, k);
    hide Before, PathsOverlap;
    if op.CloseWindow? { WindowTakesExactly(s, op.window, session); }
    if op.Authorize? { TurnIsRecorded(s, op); }
    hide WindowSessions, GoesWith;
  }

  /** In every run, a turn has the app if and only if the step that began it opted in, as
      the turn of a session that was neither lead nor worker. */
  lemma {:induction false} AppTurnsWereOptedIn(r: Registry, ops: seq<Op>, n: nat, session: string)
    returns (k: nat)
    requires Keyed(r) && GrantsApart(r) && r.active == map[] && FoundThroughout(r, ops) && n <= |ops|
    requires session in Before(r, ops, n).active
    ensures k < n && ops[k].Authorize? && ops[k].session == session && EndsTurn(r, ops, k, session)
    ensures forall i :: k < i < n ==> !EndsTurn(r, ops, i, session)
    ensures var turn := Before(r, ops, n).active[session];
            && turn.window == ops[k].window
            && (turn.appAllowed <==> OptsIn(r, ops, k, session, turn.window))
    decreases n
  {
    hide Before, EndsTurn, OptsIn;
    if n == 0 {
      StartOfRun(r, ops);
    } else {
      TurnStaysOrIsNew(r, ops, n - 1, session);
      if EndsTurn(r, ops, n - 1, session) {
        k := n - 1;
        EndedByItself(r, ops, k, session);
      } else {
        k := AppTurnsWereOptedIn(r, ops, n - 1, session);
      }
    }
  }

  lemma EndedByItself(r: Registry, ops: seq<Op>, k: nat, session: string)
    requires k < |ops| && EndsTurn(r, ops, k, session) && ops[k].Authorize?
    ensures ops[k].session == session
  {
  }

  /** Whoever may use the app, at any point of any run, is neither lead nor worker and runs
      a turn in the window of the token that opted in and has not ended since. */
  lemma AppUseWasOptedIn(r: Registry, ops: seq<Op>, n: nat, g: Grant) returns (k: nat)
    requires Keyed(r) && GrantsApart(r) && r.active == map[] && FoundThroughout(r, ops) && n <= |ops|
    requires MayUseApp(Before(r, ops, n), g)
    ensures g.session !in Before(r, ops, n).grants && g.session !in Before(r, ops, n).workers
    ensures k < n && OptsIn(r, ops, k, g.session, g.window)
    ensures forall i :: k < i < n ==> !EndsTurn(r, ops, i, g.session)
  {
    k := AppTurnsWereOptedIn(r, ops, n, g.session);
  }

  /** And right after it has opted in it may, with the token it then has. */
  lemma OptingInWorks(r: Registry, ops: seq<Op>, k: nat, session: string, window: string)
    requires Keyed(r) && GrantsApart(r) && FoundThroughout(r, ops) && k < |ops|
    requires OptsIn(r, ops, k, session, window)
    ensures var s := Before(r, ops, k + 1);
            session in s.appGrants && MayUseApp(s, s.appGrants[session])
  {
    GrantsThroughout(r, ops, k);
    RunStep(r, ops, k);
    hide Before, PathsOverlap;
    TurnIsRecorded(Before(r, ops, k), ops[k]);
  }
}
