/** A run of `host/engine.ts` that loses a turn: from a new host, with no failure but one
    binding that throws. */
module HostLostTurn {
  import opened Wrappers
  import opened HostSessions
  import opened DeltaSync
  import opened HostStores
  import opened HostSteps
  import opened HostRuns
  import opened HostGuarantees
  import opened HostStreams
  import opened HostFailures
  import opened HostRebinding

  /** The plainest surroundings: every event binds the provider. */
  function Plain(): Harness {
    Harness((s: Session, event: HarnessEvent) => Some(s.(providerSessionId := Some("b"))), (s: Session, at: Time) => s,
            (text: string, harness: string, files: seq<string>) => text, (title: string, harness: string) => false,
            (files: seq<string>) => Some(files), (cwd: string, worktree: Option<string>) => Some(cwd),
            (harness: string) => true, (harness: string) => true)
  }

  function Calls(newId: string, runId: string, throws: bool): Env { Env(0, newId, runId, false, false, false, throws) }

  function Hello(commandId: string): Command { Send(commandId, "s", "hello", [], None, None, None) }

  lemma PlainIsLawful()
    ensures Lawful(Plain()) && forall s, at :: Plain().stop(s, at).providerSessionId == s.providerSessionId
  {
  }

  /** The session waits for a message. */
  ghost predicate Waits(e: Engine, used: set<string>, commands: set<string>) {
    && !e.closing && e.switching == {} && "s" !in e.live && e.used <= used && e.turns.Keys <= used
    && e.tables.receipts.Keys <= commands
    && "s" in e.tables.sessions && e.tables.sessions["s"].status != Running && e.tables.sessions["s"].session.id == "s"
  }

  lemma CommitNotes(e: Engine, c: Command, v: HostSession, env: Env)
    ensures var e' := Committed(e, c, v, env);
            && e'.used == e.used + {env.newId, env.runId} && e'.switching == e.switching && e'.closing == e.closing
            && e'.tables.receipts.Keys == e.tables.receipts.Keys + {c.commandId}
            && (c.Create? && v.session.id !in e.live ==> v.session.id !in e'.live)
  {
    var id, input, record := v.session.id, InputOf(c, v, env), HostSessions.Commanded(c);
    CommittedIs(e, c, v, env);
    var first := WithReceipt(NewIds(e, env), c, v);
    assert first.live == e.live && first.used == e.used + {env.newId, env.runId} && first.switching == e.switching;
    assert first.closing == e.closing && first.tables.receipts.Keys == e.tables.receipts.Keys + {c.commandId};
    hide Committed, InputOf, WithReceipt, NewIds, Written, SameElsewhere;
    WrittenFrame(first, input, record);
    InputIsNamed(c, v, env);
    RefreshKeepsTables(Written(first, input, record), id);
    EffectNotes(Written(first, input, record), c, id, env);
  }

  lemma EffectNotes(e: Engine, c: Command, id: string, env: Env)
    requires id in e.tables.sessions
    ensures var e' := Effect(Refreshed(e, id), c, id, env);
            && e'.used == e.used && e'.switching == e.switching && e'.closing == e.closing && e'.tables == e.tables
            && (c.Create? && id !in e.live ==> id !in e'.live)
  {
    RefreshNotes(e, id);
    hide Refreshed;
  }

  lemma RefreshNotes(e: Engine, id: string)
    ensures var e' := Refreshed(e, id);
            && e'.used == e.used && e'.switching == e.switching && e'.closing == e.closing && e'.tables == e.tables
            && (id !in e.live ==> id !in e'.live)
  {
  }

  lemma MessageFits(e: Engine, commandId: string, env: Env, used: set<string>, commands: set<string>)
    requires Waits(e, used, commands) && commandId !in commands && !env.saveFails
    ensures !Replayed(e, Hello(commandId)) && Issued(Plain(), e, Hello(commandId), env).1.Ok?
  {
    var v, c := e.tables.sessions["s"], Hello(commandId);
    assert Sent(Plain(), v, c, env).Some? by { hide Prompted; }
    hide Sent, Committed;
    assert HostSteps.Commanded(Plain(), e.switching, v, c, env).Some?;
    assert Flushed(e, "s", env.now, env.flushFails) == e;
  }

  /** A message starts a run. */
  ghost predicate Runs(e: Engine, r: string, phase: Phase, used: set<string>, commands: set<string>) {
    && !e.closing && e.switching == {} && e.used <= used && e.turns.Keys <= used
    && e.tables.receipts.Keys <= commands
    && "s" in e.tables.sessions && "s" in e.live && "s" in e.running
    && e.live["s"].value.status == Running && e.live["s"].value.runId == Some(r)
    && !e.running["s"].cancelled && r in e.turns && e.turns[r].sessionId == "s" && e.turns[r].phase == phase
  }

  lemma MessageRuns(e: Engine, commandId: string, env: Env, used: set<string>, commands: set<string>)
    requires Waits(e, used, commands) && commandId !in commands && !env.saveFails
    ensures Runs(Issued(Plain(), e, Hello(commandId), env).0, env.runId, Queued, used + {env.newId, env.runId},
                 commands + {commandId})
  {
    var h, c := Plain(), Hello(commandId);
    MessageFits(e, commandId, env, used, commands);
    hide Plain, Issued, Outcome, Committed;
    IssuedIsCommitted(h, e, c, env);
    StartsRunning(h, e, c, env);
    CommittedRun(e, c, Outcome(h, e, c, env).value, env);
    CommitNotes(e, c, Outcome(h, e, c, env).value, env);
  }

  lemma CreatedWaits(projects: map<string, string>, c: Command, env: Env)
    requires projects == map["p" := "/p"] && c == Create("c0", "p", None, None, "x", "m", map[], "full")
    requires env.newId == "s" && !env.saveFails
    ensures var e := Issued(Plain(), NewHost(projects), c, env).0;
            Waits(e, {env.newId, env.runId}, {"c0"})
  {
    var e0, h := NewHost(projects), Plain();
    var v := Created(h, projects, {}, c, env).value;
    assert v.session.id == "s" && v.status == Idle;
    assert Issued(h, e0, c, env).0 == Committed(e0, c, v, env) by { hide Committed; }
    CommitNotes(e0, c, v, env);
    CommittedCore(h, e0, c, v, env);
    CommitAdds(e0, c, v, env);
    hide Issued, Committed, Created, Plain;
    SameParts(Committed(e0, c, v, env).tables.sessions["s"], v);
  }

  function Spoken(): HarnessEvent { Streamed("message.delta", "") }

  lemma TurnStarts(e: Engine, r: string, used: set<string>, commands: set<string>, env: Env)
    requires Inv(Plain(), e) && Runs(e, r, Queued, used, commands)
    ensures Step(Plain(), e, StartTurn(r), env, Started(e, r))
    ensures var e' := Started(e, r);
            Inv(Plain(), e') && Runs(e', r, InProvider, used, commands) && e'.turns.Keys == e.turns.Keys
  {
    StartedKeeps(Plain(), e, r);
    hide Inv;
  }

  lemma ProviderSpeaks(e: Engine, r: string, used: set<string>, commands: set<string>, env: Env)
    requires Inv(Plain(), e) && Runs(e, r, InProvider, used, commands)
    ensures Step(Plain(), e, Emit("s", r, Spoken()), env, Emitted(Plain(), e, "s", r, Spoken(), env))
    ensures var e' := Emitted(Plain(), e, "s", r, Spoken(), env);
            && Inv(Plain(), e') && Runs(e', r, InProvider, used, commands) && e'.turns == e.turns
            && e'.live["s"].value.session.providerSessionId == Some("b")
  {
    PlainIsLawful();
    EmitKeeps(Plain(), e, "s", r, Spoken(), env);
    hide Inv, TimerFlushed;
    assert Emitted(Plain(), e, "s", r, Spoken(), env) == Pushed(Plain(), e, "s", Spoken());
  }

  function Answered(e: Engine, r: string): Engine
    requires r in e.turns
  {
    e.(turns := e.turns[r := e.turns[r].(phase := Stopping, error := None)])
  }

  lemma ProviderAnswers(e: Engine, r: string, used: set<string>, commands: set<string>, env: Env)
    requires Inv(Plain(), e) && Runs(e, r, InProvider, used, commands)
    ensures Step(Plain(), e, ProviderDone(r, None), env, Answered(e, r))
    ensures Inv(Plain(), Answered(e, r)) && Runs(Answered(e, r), r, Stopping, used, commands)
    ensures Answered(e, r).turns.Keys == e.turns.Keys && Answered(e, r).live == e.live
  {
    assert e.dispatched + [] == e.dispatched;
    PhaseKeeps(Plain(), e, r, e.turns[r].(phase := Stopping, error := None), false);
    hide Inv;
  }

  /** Its provider has stopped and cannot be bound again. */
  lemma TurnIsLeftBehind(e: Engine, r: string, used: set<string>, commands: set<string>, env: Env)
    requires Inv(Plain(), e) && Runs(e, r, Stopping, used, commands)
    requires e.live["s"].value.session.providerSessionId == Some("b")
    requires env.bindThrows && !env.stopFails && !env.flushFails && !env.saveFails
    ensures r in e.turns && Step(Plain(), e, TurnStopped(r), env, Stopped(Plain(), e, r, env))
    ensures var e' := Stopped(Plain(), e, r, env);
            LeftBehind(e', "s", r) && Waits(e', used, commands)
  {
    PlainIsLawful();
    FailedBindingLeavesATimer(Plain(), e, r, env);
    StoppedRemembers(Plain(), e, r, env);
    StopEnds(Plain(), e, r, env);
    StopWith(Plain(), e, r, env, e.turns, e.retryTimers);
    hide Inv, Stopped, StopEnd;
  }

  lemma WaitsFresh(e: Engine, used: set<string>, commands: set<string>, env: Env)
    requires Waits(e, used, commands) && env.newId !in used && env.runId !in used && env.newId != env.runId
    ensures FreshIds(e, env)
  {
  }

  lemma RunsFresh(e: Engine, r: string, phase: Phase, used: set<string>, commands: set<string>, env: Env)
    requires Runs(e, r, phase, used, commands) && env.newId !in used && env.runId !in used && env.newId != env.runId
    ensures FreshIds(e, env)
  {
  }

  /** The session is stored as running, and the host has forgotten it. */
  ghost predicate IsLost(e: Engine, id: string) {
    && id in e.tables.sessions && e.tables.sessions[id].status == Running && id !in e.running && id !in e.live
    && !MapIsRight(e)
  }

  function Creation(): Command { Create("c0", "p", None, None, "x", "m", map[], "full") }

  function Operations(): seq<Op> {
    [Issue(Creation()), Issue(Hello("c1")), StartTurn("r1"), Emit("s", "r1", Spoken()), ProviderDone("r1", None),
     TurnStopped("r1"), Issue(Hello("c2")), RetryDue("s"), RetryStopped("r1")]
  }

  function Environments(): seq<Env> {
    [Calls("s", "i0", false), Calls("n1", "r1", false), Calls("n2", "i2", false), Calls("n2", "i2", false),
     Calls("n2", "i2", false), Calls("n2", "i2", true), Calls("n3", "r2", false), Calls("n4", "i4", false),
     Calls("n4", "i4", false)]
  }

  const Used: set<string> := {"s", "i0", "n1", "r1"}
  const Known: set<string> := {"c0", "c1"}

  /** The names of the run are different. */
  lemma NamesDiffer()
    ensures "n2" !in Used && "i2" !in Used && "n2" != "i2"
    ensures "n3" !in Used && "r2" !in Used && "n3" != "r2" && "c2" !in Known
    ensures "n4" !in Used + {"n3", "r2"} && "i4" !in Used + {"n3", "r2"} && "n4" != "i4"
    ensures {"s", "i0"} + {"n1", "r1"} == Used && {"c0"} + {"c1"} == Known
    ensures "n1" !in {"s", "i0"} && "r1" !in {"s", "i0"} && "n1" != "r1" && "c1" !in {"c0"}
  {
  }

  lemma IssueSteps(e: Engine, c: Command, env: Env)
    ensures Step(Plain(), e, Issue(c), env, Issued(Plain(), e, c, env).0)
  {
    hide Issued;
  }

  /** A session is created and sent a message. */
  lemma FirstTurnStarts(e0: Engine) returns (e1: Engine, e2: Engine)
    requires e0 == NewHost(map["p" := "/p"])
    ensures Step(Plain(), e0, Issue(Creation()), Calls("s", "i0", false), e1) && FreshIds(e0, Calls("s", "i0", false))
    ensures Step(Plain(), e1, Issue(Hello("c1")), Calls("n1", "r1", false), e2) && FreshIds(e1, Calls("n1", "r1", false))
    ensures Inv(Plain(), e2) && Runs(e2, "r1", Queued, Used, Known)
  {
    var h, first, second := Plain(), Calls("s", "i0", false), Calls("n1", "r1", false);
    assert FreshIds(e0, first);
    NewHostIsFine(h, map["p" := "/p"]);
    PlainIsLawful();
    NamesDiffer();
    CreatedWaits(map["p" := "/p"], Creation(), first);
    hide Plain, Lawful, Inv, Issued, Runs, Waits, Step, NewHost;
    e1 := Issued(h, e0, Creation(), first).0;
    IssueSteps(e0, Creation(), first);
    StepKeepsInv(h, e0, Issue(Creation()), first, e1);
    assert {first.newId, first.runId} == {"s", "i0"};
    WaitsFresh(e1, {"s", "i0"}, {"c0"}, second);
    MessageRuns(e1, "c1", second, {"s", "i0"}, {"c0"});
    e2 := Issued(h, e1, Hello("c1"), second).0;
    IssueSteps(e1, Hello("c1"), second);
    StepKeepsInv(h, e1, Issue(Hello("c1")), second, e2);
  }

  /** Its provider speaks, answers and stops, but binding it again throws. */
  lemma FirstTurnEnds(e2: Engine, r: string, env: Env, last: Env) returns (e3: Engine, e4: Engine, e5: Engine, e6: Engine)
    requires Inv(Plain(), e2) && Runs(e2, r, Queued, Used, Known)
    requires env == Calls("n2", "i2", false) && last == Calls("n2", "i2", true)
    ensures Step(Plain(), e2, StartTurn(r), env, e3) && FreshIds(e2, env)
    ensures Step(Plain(), e3, Emit("s", r, Spoken()), env, e4) && FreshIds(e3, env)
    ensures Step(Plain(), e4, ProviderDone(r, None), env, e5) && FreshIds(e4, env)
    ensures Step(Plain(), e5, TurnStopped(r), last, e6) && FreshIds(e5, last)
    ensures LeftBehind(e6, "s", r) && Waits(e6, Used, Known)
  {
    NamesDiffer();
    hide Plain, Inv, Started, Emitted, Stopped, LeftBehind, Waits, Step, FreshIds;
    hide Used, Known;
    e3 := Started(e2, r);
    TurnStarts(e2, r, Used, Known, env);
    e4 := Emitted(Plain(), e3, "s", r, Spoken(), env);
    ProviderSpeaks(e3, r, Used, Known, env);
    e5 := Answered(e4, r);
    ProviderAnswers(e4, r, Used, Known, env);
    hide Answered, Runs;
    TurnIsLeftBehind(e5, r, Used, Known, last);
    e6 := Stopped(Plain(), e5, r, last);
    RunsFresh(e2, r, Queued, Used, Known, env);
    RunsFresh(e3, r, InProvider, Used, Known, env);
    RunsFresh(e4, r, InProvider, Used, Known, env);
    RunsFresh(e5, r, Stopping, Used, Known, last);
  }

  /** A second message starts a run, and the retry of the first takes it away. */
  lemma SecondTurnIsLost(e6: Engine, r: string, env: Env, later: Env) returns (e7: Engine, e8: Engine, e9: Engine)
    requires LeftBehind(e6, "s", r) && Waits(e6, Used, Known)
    requires env == Calls("n3", "r2", false) && later == Calls("n4", "i4", false)
    ensures Step(Plain(), e6, Issue(Hello("c2")), env, e7) && FreshIds(e6, env)
    ensures Step(Plain(), e7, RetryDue("s"), later, e8) && FreshIds(e7, later)
    ensures Step(Plain(), e8, RetryStopped(r), later, e9) && FreshIds(e8, later)
    ensures IsLost(e9, "s")
  {
    NamesDiffer();
    PlainIsLawful();
    assert env.runId !in e6.turns;
    hide Plain, Lawful, Issued, RetriedStop, LeftBehind, Waits, Runs, Step, FreshIds;
    hide Used, Known;
    MessageFits(e6, "c2", env, Used, Known);
    MessageRuns(e6, "c2", env, Used, Known);
    WaitsFresh(e6, Used, Known, env);
    IssueSteps(e6, Hello("c2"), env);
    e7 := Issued(Plain(), e6, Hello("c2"), env).0;
    RunsFresh(e7, env.runId, Queued, Used + {env.newId, env.runId}, Known + {"c2"}, later);
    LeftBehindDropsANewerRun(Plain(), e6, "s", r, Hello("c2"), env, later);
    e8, e9 :| Step(Plain(), e7, RetryDue("s"), later, e8) && Step(Plain(), e8, RetryStopped(r), later, e9)
              && "s" in e9.tables.sessions && e9.tables.sessions["s"].status == Running
              && "s" !in e9.running && "s" !in e9.live;
    DueKeepsIds(e7, later, e8);
    assert !MapsAgree(e9, "s");
  }

  lemma DueKeepsIds(e: Engine, env: Env, e': Engine)
    requires Step(Plain(), e, RetryDue("s"), env, e') && FreshIds(e, env)
    ensures FreshIds(e', env)
  {
  }

  /** So the second turn of a session can be lost where nothing fails but one binding,
      and every step is what the host does. */
  lemma ATurnIsLost()
    ensures exists h: Harness, states: seq<Engine> ::
              && Lawful(h) && LooseRun(h, states, Operations(), Environments())
              && states[0] == NewHost(map["p" := "/p"]) && IsLost(states[9], "s")
  {
    PlainIsLawful();
    var h, e0 := Plain(), NewHost(map["p" := "/p"]);
    hide Plain, Lawful, Step, Runs, Waits, LeftBehind, IsLost, Inv, FreshIds, NewHost;
    var e1, e2 := FirstTurnStarts(e0);
    var e3, e4, e5, e6 := FirstTurnEnds(e2, "r1", Calls("n2", "i2", false), Calls("n2", "i2", true));
    var e7, e8, e9 := SecondTurnIsLost(e6, "r1", Calls("n3", "r2", false), Calls("n4", "i4", false));
    var states := [e0, e1, e2, e3, e4, e5, e6, e7, e8, e9];
    assert LooseRun(h, states, Operations(), Environments());
    assert states[0] == e0 && states[9] == e9;
  }
}
