// Runs in which every environment answer is favourable: what each stage does to the
// update and which events it sends, in closed form, for single stages and stage lists.

module GoodRuns {
  import opened Options
  import opened Targets
  import opened Runner
  import opened Stages
  import opened Histories
  import Grammar

  /** Everything up to the start of the apps succeeds. */
  predicate GoodUntilStart(cfg: Config, env: Env) {
    && env.lookup && env.repo && !env.cached.LoadFailed? && env.stop
    && env.init == Ran(Done) && env.fetch == Ran(Done) && env.install == Ran(Done)
    && !NoSpace(cfg, env)
  }

  predicate Good(cfg: Config, env: Env) {
    GoodUntilStart(cfg, env) && env.start == Ran(Done) && env.complete[0] == Ran(Done)
  }

  /** An environment that loads these targets, has nothing to download, reads no status, and lets everything succeed. */
  function Calm(ts: seq<Target>): (env: Env)
    ensures forall cfg :: Good(cfg, env)
  {
    var done := Ran(Done);
    Env(true, true, Loaded(ts), Loaded(ts), true, true, map[], None, None, done, done, done, done,
        [done, done, done, done], None, None, None, [], true, true)
  }

  function Emits(fx: seq<Effect>): seq<Effect> {
    if fx == [] then [] else
      Emits(fx[..|fx| - 1]) + (if fx[|fx| - 1].Emit? then [fx[|fx| - 1]] else [])
  }

  lemma {:induction false} EmitsConcat(a: seq<Effect>, b: seq<Effect>)
    ensures Emits(a + b) == Emits(a) + Emits(b)
  {
    if b == [] {
      assert a + b == a;
    } else {
      EmitsConcat(a, b[..|b| - 1]);
      assert (a + b)[..|a + b| - 1] == a + b[..|b| - 1];
    }
  }

  lemma {:induction false} EmitsQuiet(fx: seq<Effect>)
    requires forall i :: 0 <= i < |fx| ==> !fx[i].Emit?
    ensures Emits(fx) == []
  {
    if fx != [] { EmitsQuiet(fx[..|fx| - 1]); }
  }

  lemma {:induction false} EmitsOne(e: Effect)
    requires e.Emit?
    ensures Emits([e]) == [e]
  {
    assert [e][..0] == [] && Emits([]) == [];
  }

  lemma {:induction false} EmitsAround(first: Effect, fx: seq<Effect>, last: Effect)
    requires first.Emit? && last.Emit? && forall i :: 0 <= i < |fx| ==> !fx[i].Emit?
    ensures Emits([first] + fx + [last]) == [first, last]
  {
    hide Emits;
    EmitsConcat([first] + fx, [last]);
    EmitsConcat([first], fx);
    EmitsQuiet(fx);
    EmitsOne(first);
    EmitsOne(last);
  }

  // What a stage does to the update when all goes well.

  function GoodNext(s: ActionState, u: Update, apps: seq<string>): Update {
    match s
    case InitState =>
      if Legal(InitOp, u.stage)
      then u.(stage := Initialized, done := u.done + 1, uris := if u.stage.Created? then apps else u.uris)
      else u
    case FetchState => if Legal(FetchOp, u.stage) then u.(stage := Fetched, done := u.done + 1) else u
    case InstallState => if Legal(InstallOp, u.stage) then u.(stage := Installed, done := u.done + 1) else u
    case StartState =>
      if Legal(StartOp, u.stage) then u.(stage := Runner.Completed, done := u.done + 2)
      else if Legal(CompleteOp, u.stage) then u.(stage := Runner.Completed, done := u.done + 1)
      else u
    case _ => u
  }

  function GoodEvents(s: ActionState, id: nat, target: string, stage: Stage): seq<Effect> {
    match s
    case InitState =>
      if Legal(InitOp, stage)
      then [Emit(id, target, InitStarted, None), Emit(id, target, InitCompleted, Some(true))]
      else []
    case FetchState =>
      if Legal(FetchOp, stage)
      then [Emit(id, target, DownloadStarted, None), Emit(id, target, DownloadCompleted, Some(true))]
      else []
    case StopState => if Legal(InstallOp, stage) then [Emit(id, target, InstallationStarted, None)] else []
    case InstallState => if Legal(InstallOp, stage) then [Emit(id, target, InstallationApplied, None)] else []
    case StartState => if PastInstall(stage) then [Emit(id, target, InstallationCompleted, Some(true))] else []
    case _ => []
  }

  /** A stage that goes well on the driven update. */
  predicate GoesWell(s: ActionState, o: Out, c: Ctx, us: Updates)
    requires us != []
  {
    var id := |us| - 1;
    && o.err.None?
    && o.c.runner == c.runner && o.c.to == c.to
    && Replay(us, o.fx) == us[id := GoodNext(s, us[id], Uris(c.to.apps))]
    && Emits(o.fx) == GoodEvents(s, id, c.to.id, us[id].stage)
  }

  lemma {:induction false} GoodInit(c: Ctx, us: Updates, cfg: Config, env: Env)
    requires Inv(us) && Drives(c, us, 0) && GoodUntilStart(cfg, env)
    ensures GoesWell(InitState, Init(c, us, env), c, us)
  {
    hide Replay, StepsOk, Emits, NoSpace;
    var id := |us| - 1;
    InitResumed(c, us, env);
    Grammar.InitShape(c, us, env);
    EmitsQuiet([]);
    EmitsAround(Emit(id, c.to.id, InitStarted, None), OpEffects(us, id, InitOp, AppsToInit(c, us[id].stage), env.init),
                Emit(id, c.to.id, InitCompleted, Some(OpSucceeds(us, id, InitOp, env.init))));
    hide Init;
  }

  lemma {:induction false} GoodFetch(c: Ctx, us: Updates, cfg: Config, env: Env)
    requires Inv(us) && Drives(c, us, 1) && GoodUntilStart(cfg, env)
    ensures GoesWell(FetchState, Fetch(c, us, cfg, env), c, us)
  {
    hide Replay, StepsOk, Emits, NoSpace;
    var id := |us| - 1;
    NoSteps(us);
    EmitsQuiet([]);
    if Legal(FetchOp, us[id].stage) {
      DownloadLeaves(c, us, cfg, env);
      EmitsAround(Emit(id, c.to.id, DownloadStarted, None), OpEffects(us, id, FetchOp, [], env.fetch),
                  Emit(id, c.to.id, DownloadCompleted, Some(OpSucceeds(us, id, FetchOp, env.fetch))));
    }
  }

  lemma {:induction false} GoodStop(c: Ctx, us: Updates, cfg: Config, env: Env)
    requires Inv(us) && Drives(c, us, 2) && GoodUntilStart(cfg, env)
    ensures GoesWell(StopState, Stop(c, us, env), c, us)
  {
    hide Replay, StepsOk, Emits, NoSpace, AppsToStop;
    var id := |us| - 1;
    StopLeaves(c, us, env);
    EmitsQuiet([]);
    if Legal(InstallOp, us[id].stage) {
      var started := [Emit(id, c.to.id, InstallationStarted, None)];
      var stops := if AppsToStop(c) == [] then [] else [StopApps(Uris(AppsToStop(c)))];
      EmitsConcat(started, stops);
      EmitsOne(started[0]);
      EmitsQuiet(stops);
    }
  }

  lemma {:induction false} GoodInstall(c: Ctx, us: Updates, cfg: Config, env: Env)
    requires Inv(us) && Drives(c, us, 2) && GoodUntilStart(cfg, env)
    ensures GoesWell(InstallState, Install(c, us, env), c, us)
  {
    hide Replay, StepsOk, Emits, NoSpace;
    var id := |us| - 1;
    NoSteps(us);
    EmitsQuiet([]);
    if Legal(InstallOp, us[id].stage) {
      var fx, last := OpEffects(us, id, InstallOp, [], env.install), Emit(id, c.to.id, InstallationApplied, None);
      BracketOk(us, InstallOp, [], env.install, c.to.id, [], last);
      assert [] + fx == fx;
      EmitsConcat(fx, [last]);
      EmitsQuiet(fx);
      EmitsOne(last);
    }
  }

  lemma {:induction false} StartEmits(c: Ctx, us: Updates, env: Env)
    requires us != [] && c.runner == Some(|us| - 1) && PastInstall(us[|us| - 1].stage)
    ensures Emits(Start(c, us, env).fx)
            == [Emit(|us| - 1, c.to.id, InstallationCompleted,
                     Some(Legal(CompleteOp, Launched(us[|us| - 1], env).stage)))]
  {
    hide Replay, Emits;
    var id := |us| - 1;
    StartShape(c, us, env);
    hide Start;
    var fx := StartEffects(us, id, env);
    var last := Emit(id, c.to.id, InstallationCompleted, Some(Legal(CompleteOp, Launched(us[id], env).stage)));
    Grammar.QuietComplete(Replay(us, LaunchEffects(us, id, env)), id, env.complete);
    EmitsQuiet(fx);
    EmitsConcat(fx, [last]);
    EmitsOne(last);
  }

  lemma {:induction false} GoodStart(c: Ctx, us: Updates, cfg: Config, env: Env)
    requires Inv(us) && Drives(c, us, 3) && Good(cfg, env)
    ensures GoesWell(StartState, Start(c, us, env), c, us)
  {
    hide Replay, StepsOk, Emits, NoSpace, StartEffects;
    var id := |us| - 1;
    var u := Launched(us[id], env);
    StartShape(c, us, env);
    StartRuns(c, us, env);
    StartEmits(c, us, env);
    assert AfterAttempts(u, env.complete) == Ran1(u, CompleteOp, [], Ran(Done)) by {
      AttemptsStay(Ran1(u, CompleteOp, [], Ran(Done)), env.complete[1..]);
    }
  }

  // Stage lists.

  /** Init first, Stop and Install after Fetch, Start last and after Install. */
  predicate GoodOrder(states: seq<ActionState>, level: nat) {
    states == [] ||
    (var s := states[0];
     && level < 5
     && (match s
         case CheckState(_) => false
         case InitState => level == 1
         case FetchState => level >= 2
         case StopState => level >= 3
         case InstallState => level >= 3
         case StartState => level == 4)
     && GoodOrder(states[1..], Max(level, Gives(s))))
  }

  function GoodAll(states: seq<ActionState>, u: Update, apps: seq<string>): Update
    decreases |states|
  {
    if states == [] then u else GoodAll(states[1..], GoodNext(states[0], u, apps), apps)
  }

  function GoodAllEvents(states: seq<ActionState>, id: nat, target: string, u: Update, apps: seq<string>): seq<Effect>
    decreases |states|
  {
    if states == [] then [] else
      GoodEvents(states[0], id, target, u.stage)
        + GoodAllEvents(states[1..], id, target, GoodNext(states[0], u, apps), apps)
  }

  lemma {:induction false} GoodExecute(s: ActionState, level: nat, c: Ctx, us: Updates, cfg: Config, env: Env)
    requires Inv(us) && 1 <= level <= 4 && Drives(c, us, level - 1) && GoodOrder([s], level)
    requires GoodUntilStart(cfg, env) && (s.StartState? ==> Good(cfg, env))
    ensures var o := Execute(s, c, us, cfg, env);
            && GoesWell(s, o, c, us) && Inv(Replay(us, o.fx))
            && (!s.StartState? ==> Drives(o.c, Replay(us, o.fx), Max(level, Gives(s)) - 1))
  {
    hide Replay, StepsOk, Emits, Inv, GoodUntilStart, Good, Init, Fetch, Stop, Install, Start, Execute;
    ExecuteIs(c, us, cfg, env);
    match s {
      case InitState => GoodInit(c, us, cfg, env); InitLeavesDriven(c, us, env);
      case FetchState => GoodFetch(c, us, cfg, env);
      case StopState => GoodStop(c, us, cfg, env);
      case InstallState => GoodInstall(c, us, cfg, env);
      case StartState => GoodStart(c, us, cfg, env); StartLeaves(c, us, env);
    }
    if !s.StartState? && !s.InitState? { ExecuteLeaves(s, level, c, us, cfg, env); }
    ReplayKeepsInv(us, Execute(s, c, us, cfg, env).fx);
  }

  lemma {:induction false} InitLeavesDriven(c: Ctx, us: Updates, env: Env)
    requires Inv(us) && Drives(c, us, 0)
    ensures var o := Init(c, us, env);
            StepsOk(us, o.fx) && (o.err.None? ==> Drives(o.c, Replay(us, o.fx), 1))
  {
    InitResumed(c, us, env);
  }

  /** The first stage of a list, and what follows it. */
  lemma {:induction false} GoodTail(
    states: seq<ActionState>, level: nat, id: nat, target: string, u: Update, apps: seq<string>)
    requires GoodOrder(states, level) && states != []
    ensures var s, u' := states[0], GoodNext(states[0], u, apps);
            && level < 5 && !s.CheckState?
            && GoodOrder([s], level) && GoodOrder(states[1..], Max(level, Gives(s)))
            && (if s.StartState? then states[1..] == [] else Max(level, Gives(s)) < 5)
            && GoodAll(states, u, apps) == GoodAll(states[1..], u', apps)
            && GoodAllEvents(states, id, target, u, apps)
               == GoodEvents(s, id, target, u.stage) + GoodAllEvents(states[1..], id, target, u', apps)
            && GoodAll([], u', apps) == u' && GoodAllEvents([], id, target, u', apps) == []
  {
    assert [states[0]][1..] == [];
  }

  /** A list of stages that all go well, on the driven update. */
  lemma {:induction false} GoodStates(states: seq<ActionState>, level: nat, c: Ctx, us: Updates, cfg: Config, env: Env)
    requires Inv(us) && 1 <= level <= 4 && Drives(c, us, level - 1) && GoodOrder(states, level)
    requires GoodUntilStart(cfg, env) && (StartState in states ==> Good(cfg, env))
    ensures var o, id, apps := Run(states, c, us, cfg, env), |us| - 1, Uris(c.to.apps);
            && o.err.None? && o.c.runner == c.runner && o.c.to == c.to
            && Replay(us, o.fx) == us[id := GoodAll(states, us[id], apps)]
            && Emits(o.fx) == GoodAllEvents(states, id, c.to.id, us[id], apps)
    decreases |states|
  {
    hide Replay, StepsOk, Emits, Inv, GoodUntilStart, Good, Run, Execute, NoSpace, GoodOrder, GoodNext, GoodEvents;
    var id, apps := |us| - 1, Uris(c.to.apps);
    if states == [] {
      RunNone(c, us, cfg, env);
      NoSteps(us);
      EmitsQuiet([]);
    } else {
      var s := states[0];
      GoodTail(states, level, id, c.to.id, us[id], apps);
      hide GoodAll, GoodAllEvents;
      GoodExecute(s, level, c, us, cfg, env);
      RunByStages(states, c, us, cfg, env);
      var o := Execute(s, c, us, cfg, env);
      var us', c' := Replay(us, o.fx), o.c.(num := o.c.num + 1);
      if s.StartState? {
        RunNone(c', us', cfg, env);
        assert o.fx + [] == o.fx;
        assert GoodEvents(s, id, c.to.id, us[id].stage) + [] == GoodEvents(s, id, c.to.id, us[id].stage);
      } else {
        GoodStates(states[1..], Max(level, Gives(s)), c', us', cfg, env);
        ReplayConcat(us, o.fx, Run(states[1..], c', us', cfg, env).fx);
        EmitsConcat(o.fx, Run(states[1..], c', us', cfg, env).fx);
      }
    }
  }

  lemma {:induction false} CreatedRunIs(states: seq<ActionState>, c: Ctx, us: Updates, cfg: Config, env: Env)
    requires states != [] && states[0].InitState? && c.runner.None?
    ensures var o0 := Run(states, c.(runner := Some(|us|)), us + [Update(c.to.id, [], Created, 0)], cfg, env);
            Run(states, c, us, cfg, env) == Out(o0.c, [New(c.to.id)] + o0.fx, o0.err)
  {
    hide Replay, Init, Run, Execute;
    var us0, c0 := us + [Update(c.to.id, [], Created, 0)], c.(runner := Some(|us|));
    InitCreates(c, us, env);
    InitKeepsContext(c0, us0, env);
    ExecuteIs(c, us, cfg, env);
    ExecuteIs(c0, us0, cfg, env);
    RunByStages(states, c, us, cfg, env);
    RunByStages(states, c0, us0, cfg, env);
    var create, first := [New(c.to.id)], Init(c0, us0, env);
    ReplayConcat(us, create, first.fx);
    if first.err.None? {
      var rest := Run(states[1..], c0.(num := c0.num + 1), Replay(us0, first.fx), cfg, env);
      assert create + first.fx + rest.fx == create + (first.fx + rest.fx);
    }
  }

  lemma {:induction false} InitKeepsContext(c: Ctx, us: Updates, env: Env)
    requires c.runner.Some?
    ensures Init(c, us, env).c == c
  {
    hide Replay;
  }

  /** A run that creates its update is one creation and the run on the created update. */
  lemma {:induction false} RunCreates(states: seq<ActionState>, c: Ctx, us: Updates, cfg: Config, env: Env)
    requires states != [] && states[0].InitState? && c.runner.None? && Inv(us) && Current(us).None?
    ensures var us0, c0 := us + [Update(c.to.id, [], Created, 0)], c.(runner := Some(|us|));
            var o, o0 := Run(states, c, us, cfg, env), Run(states, c0, us0, cfg, env);
            && Inv(us0) && Drives(c0, us0, 0)
            && o == Out(o0.c, [New(c.to.id)] + o0.fx, o0.err)
            && Replay(us, o.fx) == Replay(us0, o0.fx)
            && Emits(o.fx) == Emits(o0.fx)
  {
    hide Replay, Emits, Init, Run, Execute, Inv;
    var us0, c0 := us + [Update(c.to.id, [], Created, 0)], c.(runner := Some(|us|));
    var create := [New(c.to.id)];
    InitCreates(c, us, env);
    AddKeepsInv(us, Update(c.to.id, [], Created, 0));
    CreatedRunIs(states, c, us, cfg, env);
    var fx0 := Run(states, c0, us0, cfg, env).fx;
    ReplayConcat(us, create, fx0);
    EmitsQuiet(create);
    EmitsConcat(create, fx0);
    assert [] + Emits(fx0) == Emits(fx0);
  }

  // The lists after Check.

  const AFTER_CHECK: seq<ActionState> := [InitState, FetchState, StopState, InstallState, StartState]

  lemma {:induction false} ListsAreGood()
    ensures GoodOrder(AFTER_CHECK, 1) && GoodOrder(AFTER_CHECK[..2], 1) && GoodOrder(AFTER_CHECK[..4], 1)
  {
    var l := AFTER_CHECK;
    GoodCons(StartState, [], 4);
    GoodCons(InstallState, [StartState], 3);
    GoodCons(StopState, [InstallState, StartState], 3);
    GoodCons(FetchState, [StopState, InstallState, StartState], 2);
    GoodCons(InitState, [FetchState, StopState, InstallState, StartState], 1);
    GoodCons(InstallState, [], 3);
    GoodCons(StopState, [InstallState], 3);
    GoodCons(FetchState, [StopState, InstallState], 2);
    GoodCons(InitState, [FetchState, StopState, InstallState], 1);
    GoodCons(FetchState, [], 2);
    GoodCons(InitState, [FetchState], 1);
    assert l[..2] == [InitState, FetchState] && l[..4] == [InitState, FetchState, StopState, InstallState];
  }

  lemma {:induction false} GoodCons(s: ActionState, rest: seq<ActionState>, level: nat)
    requires GoodOrder(rest, Max(level, Gives(s))) && level < 5
    requires match s
      case CheckState(_) => false
      case InitState => level == 1
      case FetchState => level >= 2
      case StopState => level >= 3
      case InstallState => level >= 3
      case StartState => level == 4
    ensures forall l :: l == [s] + rest ==> GoodOrder(l, level)
  {
    assert ([s] + rest)[1..] == rest;
  }

  /** A stage list run in two parts. */
  lemma {:induction false} RunInParts(
    a: seq<ActionState>, b: seq<ActionState>, c: Ctx, us: Updates, cfg: Config, env: Env)
    requires Run(a, c, us, cfg, env).err.None?
    ensures var o := Run(a, c, us, cfg, env);
            var o' := Run(b, o.c, Replay(us, o.fx), cfg, env);
            Run(a + b, c, us, cfg, env) == Out(o'.c, o.fx + o'.fx, o'.err)
    decreases |a|
  {
    hide Replay, Run, Execute;
    if a == [] {
      RunNone(c, us, cfg, env);
      NoSteps(us);
      assert a + b == b;
      assert [] + Run(b, c, us, cfg, env).fx == Run(b, c, us, cfg, env).fx;
    } else {
      RunByStages(a, c, us, cfg, env);
      RunByStages(a + b, c, us, cfg, env);
      assert (a + b)[1..] == a[1..] + b;
      var o := Execute(a[0], c, us, cfg, env);
      var c', us' := o.c.(num := o.c.num + 1), Replay(us, o.fx);
      RunInParts(a[1..], b, c', us', cfg, env);
      var mid := Run(a[1..], c', us', cfg, env);
      ReplayConcat(us, o.fx, mid.fx);
      var rest := Run(b, mid.c, Replay(us', mid.fx), cfg, env);
      assert o.fx + (mid.fx + rest.fx) == o.fx + mid.fx + rest.fx;
    }
  }

  const FRONT: seq<ActionState> := [InitState, FetchState, StopState, InstallState]

  lemma {:induction false} FrontOf()
    ensures AFTER_CHECK == FRONT + [StartState] && GoodOrder(FRONT, 1) && !(StartState in FRONT)
  {
    ListsAreGood();
    assert AFTER_CHECK[..4] == FRONT;
  }

  /** What the stages before Start leave: an update whose apps wait to be started, or one already past that. */
  lemma {:induction false} FrontLeaves(u: Update, apps: seq<string>)
    requires Consistent(u) && !Terminal(u.stage)
    ensures var u' := GoodAll(FRONT, u, apps);
            && u'.ref == u.ref && u'.uris == (if u.stage.Created? then apps else u.uris)
            && Consistent(u') && PastInstall(u'.stage) && u'.done >= 3
            && (if Legal(CompleteOp, u.stage) then u' == u else Legal(StartOp, u'.stage))
  {
    var l := FRONT;
    assert l[1..] == [FetchState, StopState, InstallState];
    assert l[1..][1..] == [StopState, InstallState];
    assert l[1..][1..][1..] == [InstallState];
    assert l[1..][1..][1..][1..] == [];
    var u1 := GoodNext(InitState, u, apps);
    var u2 := GoodNext(FetchState, u1, apps);
    assert GoodAll([InstallState], u2, apps) == GoodNext(InstallState, u2, apps)
      by { assert [InstallState][1..] == []; }
    assert GoodAll(l[1..][1..], u2, apps) == GoodAll([InstallState], u2, apps);
    assert GoodAll(l[1..], u1, apps) == GoodAll(l[1..][1..], u2, apps);
  }

  /** A run on a driven update in which all goes well up to Start is that part, and Start on what it leaves. */
  lemma {:induction false} UpToStart(c: Ctx, us: Updates, cfg: Config, env: Env)
    requires Inv(us) && Drives(c, us, 0) && GoodUntilStart(cfg, env)
    ensures var last := |us| - 1;
            var front := Run(FRONT, c, us, cfg, env);
            var us' := us[last := GoodAll(FRONT, us[last], Uris(c.to.apps))];
            var start := Start(front.c, us', env);
            && Replay(us, front.fx) == us' && Inv(us') && Drives(front.c, us', 3)
            && Run(AFTER_CHECK, c, us, cfg, env).err == start.err
            && Run(AFTER_CHECK, c, us, cfg, env).fx == front.fx + start.fx
  {
    hide Replay, Run, Execute, GoodUntilStart, NoSpace, GoodAll, GoodAllEvents, GoodOrder, Emits, Start;
    FrontOf();
    var last, front := |us| - 1, Run(FRONT, c, us, cfg, env);
    GoodStates(FRONT, 1, c, us, cfg, env);
    assert Consistent(us[last]);
    FrontLeaves(us[last], Uris(c.to.apps));
    var us' := us[last := GoodAll(FRONT, us[last], Uris(c.to.apps))];
    RunInParts(FRONT, [StartState], c, us, cfg, env);
    RunByStages([StartState], front.c, us', cfg, env);
    ExecuteIs(front.c, us', cfg, env);
    var start := Start(front.c, us', env);
    RunNone(start.c.(num := start.c.num + 1), Replay(us', start.fx), cfg, env);
    assert [StartState][1..] == [] && start.fx + [] == start.fx;
  }

  /** An update whose apps have not been started yet fails when their start does. */
  lemma {:induction false} ResumedStartFails(c: Ctx, us: Updates, cfg: Config, env: Env)
    requires Inv(us) && Drives(c, us, 0) && GoodUntilStart(cfg, env) && env.start == Ran(Fatal)
    requires !Legal(CompleteOp, us[|us| - 1].stage)
    ensures var o, last := Run(AFTER_CHECK, c, us, cfg, env), |us| - 1;
            var uris := if us[last].stage.Created? then Uris(c.to.apps) else us[last].uris;
            && o.err == Some(ErrStartFailed)
            && Replay(us, o.fx) == us[last := Update(us[last].ref, uris, Failed, 3)]
  {
    hide Replay, Run, GoodUntilStart, GoodAll, Start, StartEffects;
    UpToStart(c, us, cfg, env);
    var last, front := |us| - 1, Run(FRONT, c, us, cfg, env);
    assert Consistent(us[last]);
    FrontLeaves(us[last], Uris(c.to.apps));
    var us' := us[last := GoodAll(FRONT, us[last], Uris(c.to.apps))];
    StartShape(front.c, us', env);
    StartRuns(front.c, us', env);
    ReplayConcat(us, front.fx, Start(front.c, us', env).fx);
  }

  /** An update whose apps have been started is completed, whatever their start would do now. */
  lemma {:induction false} ResumedCompletes(c: Ctx, us: Updates, cfg: Config, env: Env)
    requires Inv(us) && Drives(c, us, 0) && GoodUntilStart(cfg, env) && env.complete[0] == Ran(Done)
    requires Legal(CompleteOp, us[|us| - 1].stage)
    ensures var o, last := Run(AFTER_CHECK, c, us, cfg, env), |us| - 1;
            && o.err.None?
            && Replay(us, o.fx) == us[last := us[last].(stage := Runner.Completed, done := 5)]
  {
    hide Replay, Run, GoodUntilStart, GoodAll, Start, StartEffects, AfterAttempts;
    UpToStart(c, us, cfg, env);
    var last, front := |us| - 1, Run(FRONT, c, us, cfg, env);
    assert Consistent(us[last]);
    FrontLeaves(us[last], Uris(c.to.apps));
    assert us[last := us[last]] == us;
    StartShape(front.c, us, env);
    StartRuns(front.c, us, env);
    FirstAttemptCompletes(us[last], env.complete);
    ReplayConcat(us, front.fx, Start(front.c, us, env).fx);
  }

  lemma {:induction false} FirstAttemptCompletes(u: Update, rs: seq<OpResult>)
    requires Legal(CompleteOp, u.stage) && rs != [] && rs[0] == Ran(Done)
    ensures AfterAttempts(u, rs) == u.(stage := Runner.Completed, done := u.done + 1)
  {
    AttemptsStay(Ran1(u, CompleteOp, [], rs[0]), rs[1..]);
  }

  /** Everything succeeds up to the start of the apps, which fails the update. */
  lemma {:induction false} StartFails(c: Ctx, us: Updates, cfg: Config, env: Env)
    requires Inv(us) && Current(us).None? && c.runner.None? && GoodUntilStart(cfg, env) && env.start == Ran(Fatal)
    ensures var o := Run(AFTER_CHECK, c, us, cfg, env);
            && o.err == Some(ErrStartFailed)
            && Replay(us, o.fx) == us + [Update(c.to.id, Uris(c.to.apps), Failed, 3)]
  {
    hide Replay, Run, Inv, GoodUntilStart, Emits;
    RunCreates(AFTER_CHECK, c, us, cfg, env);
    var us0, c0 := us + [Update(c.to.id, [], Created, 0)], c.(runner := Some(|us|));
    ResumedStartFails(c0, us0, cfg, env);
    assert us0[|us| := Update(c.to.id, Uris(c.to.apps), Failed, 3)]
      == us + [Update(c.to.id, Uris(c.to.apps), Failed, 3)];
  }

  lemma {:induction false} AddKeepsInv(us: Updates, u: Update)
    requires Inv(us) && Current(us).None? && Consistent(u)
    ensures Inv(us + [u])
  {
  }

  /** Everything succeeds. */
  lemma {:induction false} NewCompletes(c: Ctx, us: Updates, cfg: Config, env: Env)
    requires Inv(us) && Current(us).None? && c.runner.None? && Good(cfg, env)
    ensures var o := Run(AFTER_CHECK, c, us, cfg, env);
            && o.err.None?
            && Replay(us, o.fx) == us + [Update(c.to.id, Uris(c.to.apps), Runner.Completed, 5)]
  {
    hide Replay, Run, Execute, NoSpace;
    RunCreates(AFTER_CHECK, c, us, cfg, env);
    var us0 := us + [Update(c.to.id, [], Created, 0)];
    ListsAreGood();
    GoodStates(AFTER_CHECK, 1, c.(runner := Some(|us|)), us0, cfg, env);
    CompletesFrom(us0[|us|], Uris(c.to.apps));
    assert us0[|us| := Update(c.to.id, Uris(c.to.apps), Runner.Completed, 5)]
      == us + [Update(c.to.id, Uris(c.to.apps), Runner.Completed, 5)];
  }

  lemma {:induction false} CompletesFrom(u: Update, apps: seq<string>)
    requires Consistent(u) && !Terminal(u.stage)
    ensures GoodAll(AFTER_CHECK, u, apps)
            == Update(u.ref, if u.stage.Created? then apps else u.uris, Runner.Completed, 5)
  {
    var l := AFTER_CHECK;
    var u1 := GoodNext(InitState, u, apps);
    var u2 := GoodNext(FetchState, u1, apps);
    var u3 := GoodNext(InstallState, u2, apps);
    assert l[1..] == [FetchState, StopState, InstallState, StartState];
    assert l[1..][1..] == [StopState, InstallState, StartState];
    assert l[1..][1..][1..] == [InstallState, StartState];
    assert l[1..][1..][1..][1..] == [StartState];
    assert GoodAll([StartState], u3, apps) == GoodNext(StartState, u3, apps) by { assert [StartState][1..] == []; }
    assert GoodAll(l[1..][1..][1..], u2, apps) == GoodAll([StartState], u3, apps);
    assert GoodAll(l[1..][1..], u2, apps) == GoodAll(l[1..][1..][1..], u2, apps);
    assert GoodAll(l[1..], u1, apps) == GoodAll(l[1..][1..], u2, apps);
  }
}
