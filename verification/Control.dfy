/** `src-tauri/src/control.rs`: an orchestrating session reserves a checkout; other
    sessions may work there only as its workers. */
module Control {
  import opened Wrappers

  type Path = string

  datatype Grant = Grant(window: string, session: string, cwd: Path, token: string)

  datatype Turn = Turn(window: string, cwd: Path, appAllowed: bool)

  /** The tables of `Inner`; `pending` maps a request to its window. */
  datatype Registry = Registry(
    grants: map<string, Grant>,
    appGrants: map<string, Grant>,
    workers: map<string, string>,
    scratch: map<string, Path>,
    active: map<string, Turn>,
    pending: map<string, string>)

  const Empty := Registry(map[], map[], map[], map[], map[], map[])

  // ------------------------------------------------------------------ paths

  predicate PathsOverlap(a: Path, b: Path) {
    a == b || b + "/" <= a || a + "/" <= b
  }

  predicate AtOrBelow(p: Path, top: Path) { p == top || top + "/" <= p }

  /** A canonical absolute path and its names. */
  predicate IsName(s: string) { s != "" && forall c :: c in s ==> c != '/' }

  ghost predicate AreNames(names: seq<string>) { forall n :: n in names ==> IsName(n) }

  function Below(names: seq<string>): Path {
    if names == [] then "" else "/" + names[0] + Below(names[1..])
  }

  function Rendered(names: seq<string>): Path { if names == [] then "/" else Below(names) }

  lemma {:induction false} BelowPrefix(a: seq<string>, b: seq<string>)
    requires AreNames(a) && AreNames(b)
    ensures Below(a) + "/" <= Below(b) <==> a < b
    ensures Below(a) == Below(b) <==> a == b
    decreases |a|
  {
    if a == [] {
      if b != [] { assert Below(b)[0] == '/'; }
    } else if b == [] {
      assert |Below(a)| > 0;
    } else {
      assert a[0] in a && b[0] in b;
      assert AreNames(a[1..]) && AreNames(b[1..]);
      BelowPrefix(a[1..], b[1..]);
      BelowStartsWithSlash(a[1..]);
      BelowStartsWithSlash(b[1..]);
      SplitFirst(a, b);
      BelowStep(a[0], Below(a[1..]), b[0], Below(b[1..]));
    }
  }

  lemma SplitFirst(a: seq<string>, b: seq<string>)
    requires a != [] && b != []
    ensures a == b <==> a[0] == b[0] && a[1..] == b[1..]
    ensures a < b <==> a[0] == b[0] && a[1..] < b[1..]
  {
    assert a == [a[0]] + a[1..] && b == [b[0]] + b[1..];
  }

  lemma BelowStep(x: string, s: string, y: string, t: string)
    requires IsName(x) && IsName(y) && (s == "" || s[0] == '/') && (t == "" || t[0] == '/')
    ensures "/" + x + s + "/" <= "/" + y + t <==> x == y && s + "/" <= t
    ensures "/" + x + s == "/" + y + t <==> x == y && s == t
  {
    assert "/" + x + s + "/" == "/" + x + (s + "/");
    if "/" + x + s + "/" <= "/" + y + t { NamesAgree(x, s + "/", y, t); }
    if "/" + x + s == "/" + y + t { NamesAgree(x, s, y, t); }
    SamePrefix("/" + x, s + "/", t);
    SamePrefix("/" + x, s, t);
  }

  lemma BelowStartsWithSlash(names: seq<string>)
    ensures Below(names) == "" || Below(names)[0] == '/'
  {
  }

  lemma SamePrefix(x: string, s: string, t: string)
    ensures x + s <= x + t <==> s <= t
    ensures x + s == x + t <==> s == t
  {
    if x + s <= x + t {
      assert (x + s)[|x|..] == s && (x + t)[|x|..] == t;
    }
    if x + s == x + t {
      assert (x + s)[|x|..] == s && (x + t)[|x|..] == t;
    }
  }

  lemma LongerNameDiffers(x: string, s: string, y: string, t: string)
    requires IsName(x) && IsName(y) && |x| < |y| && (s == "" || s[0] == '/')
    ensures var u, v := "/" + x + s, "/" + y + t;
            u != v && !(v <= u) && (s != "" ==> !(u <= v))
  {
    var u, v := "/" + x + s, "/" + y + t;
    assert v[1 + |x|] == y[|x|] && y[|x|] in y;
    if s != "" { assert u[1 + |x|] == '/'; }
  }

  lemma SameLengthNames(x: string, s: string, y: string, t: string)
    requires |x| == |y| && "/" + x + s <= "/" + y + t
    ensures x == y
  {
    var u, v := "/" + x + s, "/" + y + t;
    forall i | 0 <= i < |x| ensures x[i] == y[i] { assert u[1 + i] == v[1 + i]; }
  }

  /** Two names are equal when the texts that start with them agree. */
  lemma NamesAgree(x: string, s: string, y: string, t: string)
    requires IsName(x) && IsName(y) && (s == "" || s[0] == '/') && (t == "" || t[0] == '/')
    requires "/" + x + s == "/" + y + t || (s != "" && "/" + x + s <= "/" + y + t)
    ensures x == y
  {
    if |x| < |y| {
      LongerNameDiffers(x, s, y, t);
    } else if |y| < |x| {
      LongerNameDiffers(y, t, x, s);
    } else {
      SameLengthNames(x, s, y, t);
    }
  }

  /** The string test is the ancestor test on names, except that the root directory
      counts as overlapping nothing but itself. */
  lemma OverlapIsAncestry(a: seq<string>, b: seq<string>)
    requires AreNames(a) && AreNames(b)
    ensures PathsOverlap(Rendered(a), Rendered(b)) <==>
              a == b || (a != [] && b != [] && (a <= b || b <= a))
  {
    BelowPrefix(a, b);
    BelowPrefix(b, a);
    if a == [] && b != [] {
      RootIsApart(b);
    } else if b == [] && a != [] {
      RootIsApart(a);
    }
  }

  lemma RootIsApart(names: seq<string>)
    requires AreNames(names) && names != []
    ensures !PathsOverlap("/", Rendered(names))
  {
    var p := Below(names);
    assert names[0] in names;
    assert p[0] == '/' && p[1] == names[0][0] && names[0][0] in names[0];
    assert p[1] != ("/" + "/")[1] && |p + "/"| > |"/"|;
  }

  /** Of two paths that both contain `p`, one contains the other. */
  lemma AboveIsComparable(p: Path, g: Path, h: Path)
    requires AtOrBelow(p, g) && PathsOverlap(p, h)
    ensures PathsOverlap(g, h)
  {
    if h + "/" <= p && g + "/" <= p {
      if |g| < |h| {
        assert (g + "/")[..] == p[..|g| + 1] == h[..|g| + 1];
      } else if |h| < |g| {
        assert (h + "/")[..] == p[..|h| + 1] == g[..|h| + 1];
      } else {
        assert (g + "/")[..|g|] == p[..|g|] == (h + "/")[..|h|];
      }
    } else if p + "/" <= h && g + "/" <= p {
      assert g + "/" == p[..|g| + 1] == h[..|g| + 1];
    }
  }

  // ------------------------------------------------------------- operations

  datatype Op =
    | Enable(window: string, session: string, cwd: Path, token: string, appToken: string)
    | Disable(window: string, session: string)
    | Attach(window: string, lead: string, session: string, path: Path)
    | Authorize(window: string, session: string, cwd: Path, appAccess: bool, appToken: string,
                found: Option<string>)
    | Finished(session: string)
    | CloseWindow(window: string)

  predicate MayAppGrant(r: Registry, session: string) {
    session !in r.workers && session !in r.grants
  }

  /** `prepare_app_grant`: an installed token is kept. */
  function WithAppGrant(r: Registry, session: string, window: string, cwd: Path, token: string): Registry {
    if MayAppGrant(r, session) then
      var t := if session in r.appGrants then r.appGrants[session].token else token;
      r.(appGrants := r.appGrants[session := Grant(window, session, cwd, t)])
    else r
  }

  predicate EnableAllowed(r: Registry, window: string, session: string, cwd: Path) {
    && (forall id :: id in r.active && id != session ==> !PathsOverlap(r.active[id].cwd, cwd))
    && (forall id :: id in r.grants && PathsOverlap(r.grants[id].cwd, cwd) ==>
         r.grants[id].session == session && r.grants[id].window == window)
  }

  /** What the guard of `control_authorize_turn` asks of the grant it found. */
  predicate Admits(r: Registry, g: string, window: string, session: string)
    requires g in r.grants
  {
    && r.grants[g].window == window
    && (r.grants[g].session == session
        || (session in r.workers && r.workers[session] == r.grants[g].session))
  }

  predicate Owns(r: Registry, window: string, session: string) {
    session in r.grants && r.grants[session].window == window
  }

  /** The sessions holding grants of a window. */
  function SessionsOf(grants: map<string, Grant>, window: string): set<string> {
    set id | id in grants && grants[id].window == window :: grants[id].session
  }

  /** The sessions that end with a window. */
  function WindowSessions(r: Registry, window: string): set<string> {
    var leads := SessionsOf(r.grants, window);
    leads
    + SessionsOf(r.appGrants, window)
    + (set id | id in r.workers && r.workers[id] in leads :: id)
    + (set id | id in r.active && r.active[id].window == window :: id)
  }

  predicate Accepted(r: Registry, op: Op) {
    match op
    case Enable(window, session, cwd, _, _) => EnableAllowed(r, window, session, cwd)
    case Disable(window, session) => Owns(r, window, session)
    case Attach(window, lead, _, _) => Owns(r, window, lead)
    case Authorize(window, session, _, _, _, found) =>
      found.Some? && found.value in r.grants ==> Admits(r, found.value, window, session)
    case Finished(_) => true
    case CloseWindow(_) => true
  }

  /** The tables after an operation; a refused one changes nothing. */
  function Step(r: Registry, op: Op): Registry {
    if !Accepted(r, op) then r
    else match op
      case Enable(window, session, cwd, token, appToken) =>
        var s := WithAppGrant(r, session, window, cwd, appToken);
        s.(grants := s.grants[session := Grant(window, session, cwd, token)])
      case Disable(_, session) =>
        var workers := map id | id in r.workers && r.workers[id] != session :: r.workers[id];
        r.(grants := r.grants - {session}, workers := workers,
           scratch := map id | id in r.scratch && id in workers :: r.scratch[id])
      case Attach(_, lead, session, path) =>
        r.(workers := r.workers[session := lead],
           appGrants := r.appGrants - {session},
           scratch := r.scratch[session := path])
      case Authorize(window, session, cwd, appAccess, appToken, _) =>
        var s := WithAppGrant(r, session, window, cwd, appToken);
        s.(active := s.active[session := Turn(window, cwd, appAccess && MayAppGrant(r, session))])
      case Finished(session) => r.(active := r.active - {session})
      case CloseWindow(window) =>
        var ids := WindowSessions(r, window);
        Registry(r.grants - ids, r.appGrants - ids, r.workers - ids, r.scratch - ids,
                 r.active - ids,
                 map id | id in r.pending && r.pending[id] != window :: r.pending[id])
  }

  /** The table search returned some overlapping grant, if there is one. */
  ghost predicate FoundOk(r: Registry, op: Op) {
    op.Authorize? ==>
      match op.found
      case Some(g) => g in r.grants && PathsOverlap(r.grants[g].cwd, op.cwd)
      case None => forall g :: g in r.grants ==> !PathsOverlap(r.grants[g].cwd, op.cwd)
  }

  datatype Refusal = UnknownNamespace | Unauthorized | TurnInactive

  /** A session that may use the app at all is neither lead nor worker, and its turn in the
      window of its token was opted in. */
  predicate MayUseApp(r: Registry, g: Grant) {
    && g.session !in r.grants && g.session !in r.workers
    && g.session in r.active && r.active[g.session].window == g.window && r.active[g.session].appAllowed
  }

  /** The host's tables, updated in place by its commands. */
  class Inner {
    var grants: map<string, Grant>
    var appGrants: map<string, Grant>
    var workers: map<string, string>
    var scratch: map<string, Path>
    var active: map<string, Turn>
    var pending: map<string, string>

    ghost function State(): Registry
      reads this
    {
      Registry(grants, appGrants, workers, scratch, active, pending)
    }

    constructor ()
      ensures State() == Empty
    {
      grants, appGrants, workers := map[], map[], map[];
      scratch, active, pending := map[], map[], map[];
    }

    method PrepareAppGrant(session: string, window: string, cwd: Path, token: string) returns (eligible: bool)
      modifies this
      ensures eligible == MayAppGrant(old(State()), session)
      ensures State() == WithAppGrant(old(State()), session, window, cwd, token)
    {
      if session in workers || session in grants {
        return false;
      }
      var t := if session in appGrants then appGrants[session].token else token;
      appGrants := appGrants[session := Grant(window, session, cwd, t)];
      eligible := true;
    }

    /** `control_enable`, with the directory already canonical. */
    method Enable(window: string, session: string, cwd: Path, token: string, appToken: string)
      returns (ok: bool)
      modifies this
      ensures ok == EnableAllowed(old(State()), window, session, cwd)
      ensures State() == Step(old(State()), Op.Enable(window, session, cwd, token, appToken))
    {
      if exists id :: id in active && id != session && PathsOverlap(active[id].cwd, cwd) {
        return false;
      }
      if exists id :: id in grants && PathsOverlap(grants[id].cwd, cwd)
                      && (grants[id].session != session || grants[id].window != window) {
        return false;
      }
      var _ := PrepareAppGrant(session, window, cwd, appToken);
      grants := grants[session := Grant(window, session, cwd, token)];
      ok := true;
    }

    method Disable(window: string, session: string)
      modifies this
      ensures State() == Step(old(State()), Op.Disable(window, session))
    {
      if session in grants && grants[session].window == window {
        grants := grants - {session};
        workers := map id | id in workers && workers[id] != session :: workers[id];
        scratch := map id | id in scratch && id in workers :: scratch[id];
      }
    }

    /** `path` is the worker's scratch directory, reused or new. */
    method AttachWorker(window: string, lead: string, session: string, path: Path) returns (ok: bool)
      modifies this
      ensures ok == Owns(old(State()), window, lead)
      ensures State() == Step(old(State()), Op.Attach(window, lead, session, path))
    {
      if lead !in grants || grants[lead].window != window {
        return false;
      }
      workers := workers[session := lead];
      appGrants := appGrants - {session};
      scratch := scratch[session := path];
      ok := true;
    }

    /** The search takes the overlapping grant that the hash table yields first. */
    method AuthorizeTurn(window: string, session: string, cwd: Path, appAccess: bool, appToken: string)
      returns (ok: bool, ghost found: Option<string>)
      modifies this
      ensures var op := Op.Authorize(window, session, cwd, appAccess, appToken, found);
              && FoundOk(old(State()), op)
              && ok == Accepted(old(State()), op)
              && State() == Step(old(State()), op)
    {
      found := None;
      if exists g :: g in grants && PathsOverlap(grants[g].cwd, cwd) {
        var g :| g in grants && PathsOverlap(grants[g].cwd, cwd);
        found := Some(g);
        var lead := grants[g];
        if lead.window != window
           || (lead.session != session
               && !(session in workers && workers[session] == lead.session)) {
          return false, found;
        }
      }
      var eligible := PrepareAppGrant(session, window, cwd, appToken);
      active := active[session := Turn(window, cwd, appAccess && eligible)];
      ok := true;
    }

    /** `request_grant`: whom a token speaks for. The search takes the grant with that token
        that the hash table yields first. */
    method RequestGrant(namespace: string, token: string) returns (r: Result<Grant, Refusal>)
      ensures namespace != "control" && namespace != "app" <==> r == Err(UnknownNamespace)
      ensures r.Ok? ==> r.value.token == token
      ensures r.Ok? && namespace == "control" ==> exists id :: id in grants && grants[id] == r.value
      ensures r.Ok? && namespace == "app" ==>
                (exists id :: id in appGrants && appGrants[id] == r.value) && MayUseApp(State(), r.value)
      ensures r == Err(Unauthorized) <==>
                || (namespace == "control" && forall id :: id in grants ==> grants[id].token != token)
                || (namespace == "app" && forall id :: id in appGrants ==> appGrants[id].token != token)
      ensures r == Err(TurnInactive) ==>
                namespace == "app"
                && exists id :: id in appGrants && appGrants[id].token == token && !MayUseApp(State(), appGrants[id])
    {
      if namespace != "control" && namespace != "app" {
        return Err(UnknownNamespace);
      }
      var table := if namespace == "control" then grants else appGrants;
      if !exists id :: id in table && table[id].token == token {
        return Err(Unauthorized);
      }
      var id :| id in table && table[id].token == token;
      var grant := table[id];
      if namespace == "app"
         && (grant.session in grants || grant.session in workers
             || !(grant.session in active && active[grant.session].window == grant.window
                  && active[grant.session].appAllowed)) {
        return Err(TurnInactive);
      }
      r := Ok(grant);
    }

    method TurnFinished(session: string)
      modifies this
      ensures State() == Step(old(State()), Op.Finished(session))
    {
      active := active - {session};
    }

    method CloseWindow(window: string) returns (ids: set<string>)
      modifies this
      ensures ids == WindowSessions(old(State()), window)
      ensures State() == Step(old(State()), Op.CloseWindow(window))
    {
      hide SessionsOf;
      var leads := SessionsOf(grants, window);
      ids := leads;
      ids := ids + SessionsOf(appGrants, window);
      ids := ids + set id | id in workers && workers[id] in leads :: id;
      ids := ids + set id | id in active && active[id].window == window :: id;
      grants := grants - ids;
      appGrants := appGrants - ids;
      workers := workers - ids;
      scratch := scratch - ids;
      active := active - ids;
      pending := map id | id in pending && pending[id] != window :: pending[id];
    }
  }

  // ------------------------------------------------------------- invariants

  ghost predicate Keyed(r: Registry) {
    && (forall id :: id in r.grants ==> r.grants[id].session == id)
    && (forall id :: id in r.appGrants ==> r.appGrants[id].session == id)
  }

  /** Reserved checkouts never overlap. */
  ghost predicate GrantsApart(r: Registry) {
    forall a, b :: a in r.grants && b in r.grants && a != b ==>
      !PathsOverlap(r.grants[a].cwd, r.grants[b].cwd)
  }

  predicate LeadsOrWorksFor(r: Registry, session: string, g: string) {
    session == g || (session in r.workers && r.workers[session] == g)
  }

  /** An active turn in a reserved checkout is the lead's or one of its workers'. */
  ghost predicate TurnsOwned(r: Registry) {
    forall t, g ::
      (t in r.active && g in r.grants && PathsOverlap(r.active[t].cwd, r.grants[g].cwd)) ==>
      LeadsOrWorksFor(r, t, g)
  }

  ghost predicate Inv(r: Registry) { Keyed(r) && GrantsApart(r) && TurnsOwned(r) }

  lemma OverlapIsSymmetric()
    ensures forall a, b :: PathsOverlap(a, b) == PathsOverlap(b, a)
  {
  }

  lemma EnableStaysApart(r: Registry, op: Op)
    requires Keyed(r) && GrantsApart(r) && op.Enable? && Accepted(r, op)
    ensures Keyed(Step(r, op)) && GrantsApart(Step(r, op))
  {
    OverlapIsSymmetric();
    hide PathsOverlap;
    var s := Step(r, op);
    assert s.grants == r.grants[op.session := Grant(op.window, op.session, op.cwd, op.token)];
  }

  lemma GrantsOnlyShrink(r: Registry, op: Op)
    requires Keyed(r) && !op.Enable?
    ensures Keyed(Step(r, op))
    ensures forall g :: g in Step(r, op).grants ==> g in r.grants && Step(r, op).grants[g] == r.grants[g]
  {
    hide WindowSessions, Admits;
  }

  /** Reservations stay apart through every operation, whatever the callers do. */
  lemma GrantsStayApart(r: Registry, op: Op)
    requires Keyed(r) && GrantsApart(r)
    ensures Keyed(Step(r, op)) && GrantsApart(Step(r, op))
  {
    hide PathsOverlap, Step;
    if op.Enable? && Accepted(r, op) {
      EnableStaysApart(r, op);
    } else if op.Enable? {
      RefusedChangesNothing(r, op);
    } else {
      GrantsOnlyShrink(r, op);
    }
  }

  lemma RefusedChangesNothing(r: Registry, op: Op)
    requires !Accepted(r, op)
    ensures Step(r, op) == r
  {
  }

  /** The cases the guards leave open: a turn whose directory meets grants beyond
      the one the search found, and a working session handed to another lead. */
  ghost predicate Exclusive(r: Registry, op: Op) {
    match op
    case Authorize(_, session, cwd, _, _, _) =>
      forall g :: g in r.grants && PathsOverlap(r.grants[g].cwd, cwd) ==> LeadsOrWorksFor(r, session, g)
    case Attach(_, lead, session, _) =>
      session in r.active ==>
        forall g :: g in r.grants && PathsOverlap(r.active[session].cwd, r.grants[g].cwd) ==>
          g == session || g == lead
    case _ => true
  }

  lemma AuthorizeKeepsIff(r: Registry, op: Op)
    requires Inv(r) && FoundOk(r, op) && Accepted(r, op) && op.Authorize?
    ensures TurnsOwned(Step(r, op)) <==> Exclusive(r, op)
  {
    OverlapIsSymmetric();
    hide PathsOverlap;
    var s := Step(r, op);
    assert s.grants == r.grants && s.workers == r.workers;
    assert s.active[op.session].cwd == op.cwd;
    if TurnsOwned(s) {
      forall g | g in r.grants && PathsOverlap(r.grants[g].cwd, op.cwd)
        ensures LeadsOrWorksFor(r, op.session, g)
      {
        assert LeadsOrWorksFor(s, op.session, g);
      }
    }
    if Exclusive(r, op) {
      forall t, g | t in s.active && g in s.grants && PathsOverlap(s.active[t].cwd, s.grants[g].cwd)
        ensures LeadsOrWorksFor(s, t, g)
      {
        if t != op.session { assert LeadsOrWorksFor(r, t, g); }
      }
    }
  }

  lemma AttachKeepsIff(r: Registry, op: Op)
    requires Inv(r) && Accepted(r, op) && op.Attach?
    ensures TurnsOwned(Step(r, op)) <==> Exclusive(r, op)
  {
    hide PathsOverlap;
    var s := Step(r, op);
    if TurnsOwned(s) && op.session in r.active {
      forall g | g in r.grants && PathsOverlap(r.active[op.session].cwd, r.grants[g].cwd)
        ensures g == op.session || g == op.lead
      {
        assert LeadsOrWorksFor(s, op.session, g);
      }
    }
    if Exclusive(r, op) {
      forall t, g | t in s.active && g in s.grants && PathsOverlap(s.active[t].cwd, s.grants[g].cwd)
        ensures LeadsOrWorksFor(s, t, g)
      {
        if t != op.session { assert LeadsOrWorksFor(r, t, g); }
      }
    }
  }

  lemma OthersKeep(r: Registry, op: Op)
    requires Inv(r) && Accepted(r, op) && !op.Attach? && !op.Authorize?
    ensures TurnsOwned(Step(r, op))
  {
    hide PathsOverlap, WindowSessions;
    var s := Step(r, op);
    forall t, g | t in s.active && g in s.grants && PathsOverlap(s.active[t].cwd, s.grants[g].cwd)
      ensures LeadsOrWorksFor(s, t, g)
    {
      if op.Enable? && g == op.session {
        assert t == op.session;
      } else {
        assert LeadsOrWorksFor(r, t, g);
      }
    }
  }

  /** Exclusion is kept by every operation but those, and by those exactly when
      the stated condition held before the call. */
  lemma TurnsStayOwnedIff(r: Registry, op: Op)
    requires Inv(r) && FoundOk(r, op) && Accepted(r, op)
    ensures TurnsOwned(Step(r, op)) <==> Exclusive(r, op)
  {
    if op.Authorize? {
      AuthorizeKeepsIff(r, op);
    } else if op.Attach? {
      AttachKeepsIff(r, op);
    } else {
      OthersKeep(r, op);
    }
  }

  /** At most one grant overlaps a path at or below a grant, so a turn accepted
      there is always exclusive. */
  lemma InsideAGrantIsExclusive(r: Registry, op: Op, g: string)
    requires Inv(r) && FoundOk(r, op) && Accepted(r, op) && op.Authorize?
    requires g in r.grants && AtOrBelow(op.cwd, r.grants[g].cwd)
    ensures forall h :: h in r.grants && PathsOverlap(r.grants[h].cwd, op.cwd) ==> h == g
    ensures Exclusive(r, op)
  {
    OverlapIsSymmetric();
    forall h | h in r.grants && PathsOverlap(r.grants[h].cwd, op.cwd) ensures h == g {
      AboveIsComparable(op.cwd, r.grants[g].cwd, r.grants[h].cwd);
    }
    assert PathsOverlap(r.grants[g].cwd, op.cwd);
    assert op.found == Some(g);
  }

  ghost predicate OneGrantAt(r: Registry, cwd: Path) {
    forall g, h ::
      (g in r.grants && h in r.grants
       && PathsOverlap(r.grants[g].cwd, cwd) && PathsOverlap(r.grants[h].cwd, cwd)) ==> g == h
  }

  /** Callers that authorise turns touching one grant at most, and give a lead only
      sessions that are idle or already its own. */
  ghost predicate Disciplined(r: Registry, op: Op) {
    && (op.Authorize? ==> OneGrantAt(r, op.cwd))
    && (op.Attach? && op.session in r.active ==>
         op.session in r.workers && r.workers[op.session] == op.lead)
  }

  lemma DisciplineIsExclusive(r: Registry, op: Op)
    requires Inv(r) && FoundOk(r, op) && Accepted(r, op) && Disciplined(r, op)
    ensures Exclusive(r, op)
  {
    if op.Attach? && op.session in r.active {
      forall g | g in r.grants && PathsOverlap(r.active[op.session].cwd, r.grants[g].cwd)
        ensures g == op.session || g == op.lead
      {
        assert LeadsOrWorksFor(r, op.session, g);
      }
    }
  }

  function Run(r: Registry, ops: seq<Op>): Registry
    decreases |ops|
  {
    if ops == [] then r else Run(Step(r, ops[0]), ops[1..])
  }

  ghost predicate RunOf(r: Registry, ops: seq<Op>)
    decreases |ops|
  {
    ops == [] ||
    (FoundOk(r, ops[0]) && (Accepted(r, ops[0]) ==> Disciplined(r, ops[0]))
     && RunOf(Step(r, ops[0]), ops[1..]))
  }

  /** Exclusion over whole runs of enable, disable, attach, authorise, finish and
      window close. */
  lemma {:induction false} CheckoutExclusion(r: Registry, ops: seq<Op>)
    requires Inv(r) && RunOf(r, ops)
    ensures Inv(Run(r, ops))
    decreases |ops|
  {
    if ops != [] {
      var op := ops[0];
      GrantsStayApart(r, op);
      if Accepted(r, op) {
        DisciplineIsExclusive(r, op);
        TurnsStayOwnedIff(r, op);
      }
      CheckoutExclusion(Step(r, op), ops[1..]);
    }
  }

  /** The registry before the `k`-th operation. */
  function Before(r: Registry, ops: seq<Op>, k: nat): Registry
    requires k <= |ops|
  {
    Run(r, ops[..k])
  }

  ghost predicate FoundThroughout(r: Registry, ops: seq<Op>) {
    forall k :: 0 <= k < |ops| ==> FoundOk(Before(r, ops, k), ops[k])
  }

  ghost predicate OwnedThroughout(r: Registry, ops: seq<Op>, n: nat)
    requires n <= |ops|
  {
    forall k :: 0 <= k <= n ==> TurnsOwned(Before(r, ops, k))
  }

  /** Each of the first `n` operations, where it was taken, was one that keeps ownership. */
  ghost predicate ExclusiveThroughout(r: Registry, ops: seq<Op>, n: nat)
    requires n <= |ops|
  {
    forall k :: 0 <= k < n && Accepted(Before(r, ops, k), ops[k]) ==> Exclusive(Before(r, ops, k), ops[k])
  }

  lemma {:induction false} RunStep(r: Registry, ops: seq<Op>, k: nat)
    requires k < |ops|
    ensures Before(r, ops, k + 1) == Step(Before(r, ops, k), ops[k])
    decreases k
  {
    hide Step;
    if k == 0 {
      assert ops[..1] == [ops[0]] && ops[..1][1..] == [] && ops[..0] == [];
      assert Run(r, ops[..1]) == Run(Step(r, ops[0]), []);
    } else {
      RunStep(Step(r, ops[0]), ops[1..], k - 1);
      assert ops[..k + 1][1..] == ops[1..][..k] && ops[..k][1..] == ops[1..][..k - 1];
    }
  }

  lemma {:induction false} GrantsThroughout(r: Registry, ops: seq<Op>, k: nat)
    requires Keyed(r) && GrantsApart(r) && k <= |ops|
    ensures Keyed(Before(r, ops, k)) && GrantsApart(Before(r, ops, k))
    decreases k
  {
    hide Step, Keyed, GrantsApart;
    if k == 0 {
      assert ops[..0] == [];
    } else {
      RunStep(r, ops, k - 1);
      GrantsThroughout(r, ops, k - 1);
      GrantsStayApart(Before(r, ops, k - 1), ops[k - 1]);
    }
  }

  /** In every run, every turn in a reserved checkout stays the lead's or one of its
      workers' if and only if each accepted operation was exclusive where it was taken. */
  lemma {:induction false} ExclusionHoldsIff(r: Registry, ops: seq<Op>, n: nat)
    requires Inv(r) && FoundThroughout(r, ops) && n <= |ops|
    ensures OwnedThroughout(r, ops, n) <==> ExclusiveThroughout(r, ops, n)
    decreases n
  {
    hide Step, Run, Keyed, GrantsApart, TurnsOwned, Exclusive, Accepted, FoundOk;
    if n == 0 {
      assert ops[..0] == [] && Before(r, ops, 0) == r by { StartOfRun(r, ops); }
    } else {
      ExclusionHoldsIff(r, ops, n - 1);
      GrantsThroughout(r, ops, n - 1);
      RunStep(r, ops, n - 1);
      var before, op := Before(r, ops, n - 1), ops[n - 1];
      hide Before;
      OneMoreOperation(before, op);
      if OwnedThroughout(r, ops, n - 1) {
        assert TurnsOwned(before);
      }
      assert OwnedThroughout(r, ops, n) <==> OwnedThroughout(r, ops, n - 1) && TurnsOwned(Step(before, op));
      assert ExclusiveThroughout(r, ops, n) <==>
               ExclusiveThroughout(r, ops, n - 1) && (Accepted(before, op) ==> Exclusive(before, op));
    }
  }

  lemma StartOfRun(r: Registry, ops: seq<Op>)
    ensures Before(r, ops, 0) == r
  {
  }

  lemma OneMoreOperation(r: Registry, op: Op)
    requires Keyed(r) && GrantsApart(r) && FoundOk(r, op)
    ensures TurnsOwned(r) ==> (TurnsOwned(Step(r, op)) <==> Accepted(r, op) ==> Exclusive(r, op))
  {
    hide Step, Keyed, GrantsApart, TurnsOwned, Exclusive, Accepted, FoundOk;
    if TurnsOwned(r) {
      if Accepted(r, op) { TurnsStayOwnedIff(r, op); } else { RefusedChangesNothing(r, op); }
    }
  }

  lemma EmptyIsFine()
    ensures Inv(Empty)
  {
  }

  /** Two sessions of a window reserve neighbouring checkouts. */
  function TwoGrants(): seq<Op> { [Enable("w", "a", "/r/a", "t", "u"), Enable("w", "b", "/r/b", "v", "x")] }

  lemma TwoGrantsAreReserved()
    ensures var r := Run(Empty, TwoGrants());
            && r.grants == map["a" := Grant("w", "a", "/r/a", "t"), "b" := Grant("w", "b", "/r/b", "v")]
            && r.workers == map[] && r.active == map[]
  {
    var ops := TwoGrants();
    assert ops[1..] == [ops[1]] && ops[1..][1..] == [];
    var r1 := Step(Empty, ops[0]);
    assert "/r/a"[3] == 'a' && "/r/b"[3] == 'b';
    assert !PathsOverlap("/r/a", "/r/b");
    assert Run(Empty, ops) == Run(r1, ops[1..]) == Step(r1, ops[1]);
  }

  /** A turn in the directory above two reserved checkouts is accepted for the lead
      of one of them, and then works inside the other's. */
  lemma ParentDirectoryEscapes()
    ensures var r, op := Run(Empty, TwoGrants()), Authorize("w", "a", "/r", false, "y", Some("a"));
            Accepted(r, op) && FoundOk(r, op) && TurnsOwned(r) && !TurnsOwned(Step(r, op))
  {
    TwoGrantsAreReserved();
    hide Run, TwoGrants;
    var r, op := Run(Empty, TwoGrants()), Authorize("w", "a", "/r", false, "y", Some("a"));
    assert "/r" + "/" <= "/r/a" && "/r" + "/" <= "/r/b";
    var s := Step(r, op);
    assert "b" in s.grants && "a" in s.active && "a" !in s.workers;
    assert PathsOverlap(s.active["a"].cwd, s.grants["b"].cwd) && !LeadsOrWorksFor(s, "a", "b");
  }

  /** A worker that is handed to another lead during its turn goes on working in the
      checkout of the first. */
  lemma BusyWorkerEscapes()
    ensures var r := Run(Empty, TwoGrants());
            var hired, turn, moved := Attach("w", "a", "x", "/s"), Authorize("w", "x", "/r/a", false, "y", Some("a")),
                                      Attach("w", "b", "x", "/s");
            var s := Step(r, hired);
            var t := Step(s, turn);
            && Accepted(r, hired) && Accepted(s, turn) && FoundOk(s, turn) && Accepted(t, moved)
            && TurnsOwned(t) && !TurnsOwned(Step(t, moved))
  {
    TwoGrantsAreReserved();
    hide Run, TwoGrants;
    var r := Run(Empty, TwoGrants());
    var hired, turn, moved := Attach("w", "a", "x", "/s"), Authorize("w", "x", "/r/a", false, "y", Some("a")),
                              Attach("w", "b", "x", "/s");
    var s := Step(r, hired);
    var t := Step(s, turn);
    assert "/r/a"[3] == 'a' && "/r/b"[3] == 'b';
    assert !PathsOverlap("/r/a", "/r/b");
    assert t.active == map["x" := Turn("w", "/r/a", false && MayAppGrant(s, "x"))] && t.workers == map["x" := "a"];
    var u := Step(t, moved);
    assert u.workers["x"] == "b" && u.active == t.active && u.grants == t.grants;
    assert PathsOverlap(u.active["x"].cwd, u.grants["a"].cwd) && !LeadsOrWorksFor(u, "x", "a");
  }

  /** Closing a window leaves nothing that belongs to it. */
  lemma ClosedWindowIsGone(r: Registry, window: string)
    requires Keyed(r)
    ensures var s := Step(r, CloseWindow(window));
            && (forall id :: id in s.grants ==> s.grants[id].window != window)
            && (forall id :: id in s.appGrants ==> s.appGrants[id].window != window)
            && (forall id :: id in s.active ==> s.active[id].window != window)
            && (forall id :: id in s.pending ==> s.pending[id] != window)
            && (forall id :: id in s.workers ==>
                  !(r.workers[id] in r.grants && r.grants[r.workers[id]].window == window))
  {
  }
}
