// Every run of every action, from every reachable set of updates and with every
// answer of the environment, produces well-placed effects only; so does every
// history of runs, cut short anywhere, and of cancellations.

module Histories {
  import opened Options
  import opened Targets
  import opened Runner
  import opened Stages

  // How far a context has got, and what each stage asks for and gives.

  function Asks(s: ActionState): nat {
    match s
    case CheckState(_) => 0
    case InitState => 1
    case FetchState => 2
    case StopState => 2
    case InstallState => 3
    case StartState => 2
  }

  function Gives(s: ActionState): nat {
    match s
    case CheckState(_) => 1
    case InitState => 2
    case FetchState => 3
    case StopState => 3
    case InstallState => 4
    case StartState => 5
  }

  function Max(a: nat, b: nat): nat { if a < b then b else a }

  /** A stage list in which Check comes first, then Init, Install only after Fetch or Stop, and nothing after Start. */
  predicate Ordered(states: seq<ActionState>, level: nat) {
    states == [] ||
    (var s := states[0];
     && (s.CheckState? ==> level == 0)
     && (s.InitState? ==> level == 1)
     && Asks(s) <= level < 5
     && Ordered(states[1..], Max(level, Gives(s))))
  }

  lemma {:induction false} OrderedStep(s: ActionState, rest: seq<ActionState>, level: nat)
    requires (s.CheckState? ==> level == 0) && (s.InitState? ==> level == 1)
    requires Asks(s) <= level < 5 && Ordered(rest, Max(level, Gives(s)))
    ensures Ordered([s] + rest, level)
  {
    assert ([s] + rest)[1..] == rest;
  }

  lemma {:induction false} ActionsAreOrdered(a: Action)
    ensures Ordered(States(a), 0)
  {
    var s := States(a);
    var tail := if a.FetchAction? then [] else if a.InstallAction? then [InstallState] else [InstallState, StartState];
    assert Ordered([], 5) && Ordered([], 4) && Ordered([], 3);
    OrderedStep(StartState, [], 4);
    assert [StartState] + [] == [StartState];
    OrderedStep(InstallState, if a.InstallAction? then [] else [StartState], 3);
    assert [InstallState] + [] == [InstallState];
    assert [InstallState] + [StartState] == [InstallState, StartState];
    assert Ordered(tail, 3);
    var stop := if a.FetchAction? then [] else [StopState] + tail;
    if !a.FetchAction? { OrderedStep(StopState, tail, 3); }
    OrderedStep(FetchState, stop, 2);
    OrderedStep(InitState, [FetchState] + stop, 1);
    OrderedStep(s[0], [InitState] + ([FetchState] + stop), 0);
    assert s == [s[0]] + ([InitState] + ([FetchState] + stop));
  }

  /** The context drives the newest update, which has not ended, under that update's own target ID. */
  predicate Drives(c: Ctx, us: Updates, done: nat) {
    && us != []
    && c.runner == Some(|us| - 1)
    && c.to.id == us[|us| - 1].ref
    && !Terminal(us[|us| - 1].stage)
    && us[|us| - 1].done >= done
  }

  predicate Checked(c: Ctx, us: Updates) {
    c.runner == Current(us) && (c.runner.Some? ==> c.to.id == us[|us| - 1].ref)
  }

  predicate At(level: nat, c: Ctx, us: Updates) {
    if level == 0 || level >= 5 then true
    else if level == 1 then Checked(c, us)
    else Drives(c, us, level - 1)
  }

  // One lemma per stage.

  lemma {:induction false} EmitOk(us: Updates, target: string, kind: Kind, success: Option<bool>)
    requires us != [] && target == us[|us| - 1].ref && Window(kind, success, us[|us| - 1].done)
    ensures StepsOk(us, [Emit(|us| - 1, target, kind, success)])
    ensures Replay(us, [Emit(|us| - 1, target, kind, success)]) == us
  {
    hide Replay, StepsOk;
    OneStep(us, Emit(|us| - 1, target, kind, success));
  }

  /** An event, an operation, an event. */
  lemma {:induction false} BracketOk(us: Updates, op: Op, uris: seq<string>, r: OpResult, target: string,
                                     first: seq<Effect>, last: Effect)
    requires Inv(us) && us != [] && Legal(op, us[|us| - 1].stage) && target == us[|us| - 1].ref
    requires StepsOk(us, first) && Replay(us, first) == us
    requires last.Emit? && last.id == |us| - 1 && last.target == target
    requires Window(last.kind, last.success, Ran1(us[|us| - 1], op, uris, r).done)
    ensures var fx := first + OpEffects(us, |us| - 1, op, uris, r) + [last];
            && StepsOk(us, fx)
            && Replay(us, fx) == us[|us| - 1 := Ran1(us[|us| - 1], op, uris, r)]
  {
    hide Replay, StepsOk;
    var id := |us| - 1;
    var fx := OpEffects(us, id, op, uris, r);
    OpStepsOk(us, op, uris, r);
    OpReplay(us, id, op, uris, r);
    StepsConcat(us, first, fx);
    ReplayConcat(us, first, fx);
    var us' := Replay(us, first + fx);
    EmitOk(us', target, last.kind, last.success);
    StepsConcat(us, first + fx, [last]);
    ReplayConcat(us, first + fx, [last]);
  }

  lemma {:induction false} Chain(us: Updates, a: seq<Effect>, b: seq<Effect>)
    requires StepsOk(us, a) && StepsOk(Replay(us, a), b)
    ensures StepsOk(us, a + b) && Replay(us, a + b) == Replay(Replay(us, a), b)
  {
    StepsConcat(us, a, b);
    ReplayConcat(us, a, b);
  }

  lemma {:induction false} SelectResumed(c: Ctx, us: Updates, opts: CheckOpts, cfg: Config, env: Env)
    requires c.mode.Resume? && c.runner.Some? && c.runner.value < |us|
    ensures var sel := Select(c, us, opts, cfg, env); sel.err.None? ==> sel.to.id == us[c.runner.value].ref
  {
    hide TargetOf, Latest;
  }

  lemma {:induction false} CheckLeaves(opts: CheckOpts, c: Ctx, us: Updates, cfg: Config, env: Env)
    requires Inv(us)
    ensures var o := Check(opts, c, us, cfg, env);
            o.fx == [] && (o.err.None? ==> Checked(o.c, us))
  {
    hide Diff, Select, LoadTargets, FromTarget, InSync, Inv;
    if Current(us).Some? {
      forall c2: Ctx | c2.mode.Resume? && c2.runner == Current(us)
        ensures var sel := Select(c2, us, opts, cfg, env); sel.err.None? ==> sel.to.id == us[|us| - 1].ref
      {
        SelectResumed(c2, us, opts, cfg, env);
      }
    }
  }

  lemma {:induction false} InitResumed(c: Ctx, us: Updates, env: Env)
    requires Inv(us) && Drives(c, us, 0)
    ensures var o := Init(c, us, env);
            && StepsOk(us, o.fx)
            && o.c == c
            && Replay(us, o.fx) == us[|us| - 1 := AfterInit(us[|us| - 1], c, env)]
            && (o.err.None? ==> Drives(o.c, Replay(us, o.fx), 1))
  {
    hide Replay, StepsOk;
    var id := |us| - 1;
    NoSteps(us);
    if Legal(InitOp, us[id].stage) {
      var apps := AppsToInit(c, us[id].stage);
      var first := [Emit(id, c.to.id, InitStarted, None)];
      var last := Emit(id, c.to.id, InitCompleted, Some(OpSucceeds(us, id, InitOp, env.init)));
      EmitOk(us, c.to.id, InitStarted, None);
      BracketOk(us, InitOp, apps, env.init, c.to.id, first, last);
      var fx := OpEffects(us, id, InitOp, apps, env.init);
      assert Init(c, us, env).fx == first + fx + [last];
    } else {
      assert Init(c, us, env).fx == [];
    }
  }

  /** The update that Init leaves: a created one records the apps of the context's target. */
  function AfterInit(u: Update, c: Ctx, env: Env): Update {
    if Legal(InitOp, u.stage) then Ran1(u, InitOp, AppsToInit(c, u.stage), env.init) else u
  }

  lemma {:induction false} InitCreates(c: Ctx, us: Updates, env: Env)
    requires c.runner.None?
    ensures var us0 := us + [Update(c.to.id, [], Created, 0)];
            var c0 := c.(runner := Some(|us|));
            && Init(c, us, env) == Out(c0, [New(c.to.id)] + Init(c0, us0, env).fx, Init(c0, us0, env).err)
            && Replay(us, [New(c.to.id)]) == us0
  {
    hide Replay, StepsOk;
    OneStep(us, New(c.to.id));
    var us0 := us + [Update(c.to.id, [], Created, 0)];
    NoSteps(us0);
    var c0 := c.(runner := Some(|us|));
    var fx := [Emit(|us|, c.to.id, InitStarted, None)] + OpEffects(us0, |us|, InitOp, Uris(c.to.apps), env.init)
              + [Emit(|us|, c.to.id, InitCompleted, Some(OpSucceeds(us0, |us|, InitOp, env.init)))];
    assert Init(c0, us0, env).fx == fx;
    assert Init(c, us, env).fx == [New(c.to.id)] + fx;
  }

  lemma {:induction false} InitLeaves(c: Ctx, us: Updates, env: Env)
    requires Inv(us) && Checked(c, us)
    ensures var o := Init(c, us, env);
            StepsOk(us, o.fx) && (o.err.None? ==> Drives(o.c, Replay(us, o.fx), 1))
  {
    hide Replay, StepsOk;
    if c.runner.Some? {
      InitResumed(c, us, env);
    } else {
      var create := [New(c.to.id)];
      InitCreates(c, us, env);
      OneStep(us, New(c.to.id));
      ReplayKeepsInv(us, create);
      var us0, c0 := Replay(us, create), c.(runner := Some(|us|));
      InitResumed(c0, us0, env);
      Chain(us, create, Init(c0, us0, env).fx);
    }
  }

  lemma {:induction false} FetchLeaves(c: Ctx, us: Updates, cfg: Config, env: Env)
    requires Inv(us) && Drives(c, us, 1)
    ensures var o := Fetch(c, us, cfg, env);
            StepsOk(us, o.fx) && (o.err.None? ==> Drives(o.c, Replay(us, o.fx), 2))
  {
    hide Replay, StepsOk;
    if Legal(FetchOp, us[|us| - 1].stage) {
      DownloadLeaves(c, us, cfg, env);
    } else {
      NoSteps(us);
    }
  }

  lemma {:induction false} DownloadLeaves(c: Ctx, us: Updates, cfg: Config, env: Env)
    requires Inv(us) && Drives(c, us, 1) && Legal(FetchOp, us[|us| - 1].stage)
    ensures var o := Download(c, us, cfg, env);
            && StepsOk(us, o.fx)
            && Replay(us, o.fx) == (if NoSpace(cfg, env) then us
                                    else us[|us| - 1 := Ran1(us[|us| - 1], FetchOp, [], env.fetch)])
            && (o.err.None? ==> Drives(o.c, Replay(us, o.fx), 2))
  {
    hide Replay, StepsOk;
    var id := |us| - 1;
    var started := Emit(id, c.to.id, DownloadStarted, None);
    EmitOk(us, c.to.id, DownloadStarted, None);
    if NoSpace(cfg, env) {
      EmitOk(us, c.to.id, DownloadCompleted, Some(false));
      Chain(us, [started], [Emit(id, c.to.id, DownloadCompleted, Some(false))]);
      assert [started] + [Emit(id, c.to.id, DownloadCompleted, Some(false))] == Download(c, us, cfg, env).fx;
    } else {
      var last := Emit(id, c.to.id, DownloadCompleted, Some(OpSucceeds(us, id, FetchOp, env.fetch)));
      BracketOk(us, FetchOp, [], env.fetch, c.to.id, [started], last);
      var fx := OpEffects(us, id, FetchOp, [], env.fetch);
      assert [started] + fx + [last] == Download(c, us, cfg, env).fx;
    }
  }

  /** Stop lets no update through whose download has not finished. */
  lemma {:induction false} StopLeaves(c: Ctx, us: Updates, env: Env)
    requires Inv(us) && Drives(c, us, 1)
    ensures var o := Stop(c, us, env);
            && StepsOk(us, o.fx) && Replay(us, o.fx) == us
            && (o.err.None? ==> Drives(o.c, us, 2))
  {
    hide Replay, StepsOk;
    NoSteps(us);
    var id := |us| - 1;
    if Legal(InstallOp, us[id].stage) {
      var apps := AppsToStop(c);
      var started := Emit(id, c.to.id, InstallationStarted, None);
      var stops := if apps == [] then [] else [StopApps(Uris(apps))];
      EmitOk(us, c.to.id, InstallationStarted, None);
      if apps != [] { OneStep(us, StopApps(Uris(apps))); }
      StepsConcat(us, [started], stops);
      ReplayConcat(us, [started], stops);
      if apps != [] && !env.stop {
        EmitOk(us, c.to.id, InstallationCompleted, Some(false));
        var last := [Emit(id, c.to.id, InstallationCompleted, Some(false))];
        StepsConcat(us, [started] + stops, last);
        ReplayConcat(us, [started] + stops, last);
      }
    } else {
      NoSteps(us);
    }
  }

  lemma {:induction false} InstallLeaves(c: Ctx, us: Updates, env: Env)
    requires Inv(us) && Drives(c, us, 2)
    ensures var o := Install(c, us, env);
            && StepsOk(us, o.fx) && (o.err.None? ==> Drives(o.c, Replay(us, o.fx), 3))
            && Replay(us, o.fx) == (if PastInstall(us[|us| - 1].stage) then us
                                    else us[|us| - 1 := Ran1(us[|us| - 1], InstallOp, [], env.install)])
  {
    hide Replay, StepsOk;
    var id := |us| - 1;
    if PastInstall(us[id].stage) {
      NoSteps(us);
    } else {
      var ok := OpSucceeds(us, id, InstallOp, env.install);
      var last := if ok then Emit(id, c.to.id, InstallationApplied, None)
                  else Emit(id, c.to.id, InstallationCompleted, Some(false));
      NoSteps(us);
      BracketOk(us, InstallOp, [], env.install, c.to.id, [], last);
      var fx := OpEffects(us, id, InstallOp, [], env.install);
      assert [] + fx == fx;
    }
  }

  /** The update after a series of completion attempts. */
  function AfterAttempts(u: Update, rs: seq<OpResult>): Update
    decreases |rs|
  {
    if rs == [] then u
    else if !Legal(CompleteOp, u.stage) then u
    else AfterAttempts(Ran1(u, CompleteOp, [], rs[0]), rs[1..])
  }

  lemma {:induction false} AttemptsStay(u: Update, rs: seq<OpResult>)
    requires !Legal(CompleteOp, u.stage)
    ensures AfterAttempts(u, rs) == u
  {
  }

  lemma {:induction false} CompleteLeaves(us: Updates, rs: seq<OpResult>)
    requires Inv(us) && us != []
    requires Legal(CompleteOp, us[|us| - 1].stage) || RetryAfterFailure(us[|us| - 1], CompleteOp)
    ensures StepsOk(us, Complete(us, |us| - 1, rs))
    ensures Replay(us, Complete(us, |us| - 1, rs)) == us[|us| - 1 := AfterAttempts(us[|us| - 1], rs)]
    ensures AfterAttempts(us[|us| - 1], rs).done >= 4
    decreases |rs|
  {
    hide Replay, StepsOk;
    var id := |us| - 1;
    if rs == [] {
      NoSteps(us);
    } else {
      var fx := OpEffects(us, id, CompleteOp, [], rs[0]);
      OpStepsOk(us, CompleteOp, [], rs[0]);
      OpReplay(us, id, CompleteOp, [], rs[0]);
      ReplayKeepsInv(us, fx);
      var us' := Replay(us, fx);
      assert us'[id] == if Legal(CompleteOp, us[id].stage) then Ran1(us[id], CompleteOp, [], rs[0]) else us[id];
      assert AfterAttempts(us[id], rs) == AfterAttempts(us'[id], rs[1..]) by {
        if !Legal(CompleteOp, us[id].stage) { AttemptsStay(us[id], rs[1..]); }
      }
      if OpSucceeds(us, id, CompleteOp, rs[0]) {
        AttemptsStay(us'[id], rs[1..]);
        assert Complete(us, id, rs) == fx;
      } else {
        assert Legal(CompleteOp, us'[id].stage) || RetryAfterFailure(us'[id], CompleteOp);
        CompleteLeaves(us', rs[1..]);
        Chain(us, fx, Complete(us', id, rs[1..]));
      }
    }
  }

  lemma {:induction false} StartLeaves(c: Ctx, us: Updates, env: Env)
    requires Inv(us) && Drives(c, us, 1)
    ensures StepsOk(us, Start(c, us, env).fx)
  {
    hide Replay, StepsOk;
    NoSteps(us);
    if PastInstall(us[|us| - 1].stage) {
      StartRuns(c, us, env);
    }
  }

  /** The update that Start leaves. */
  function AfterStart(u: Update, env: Env): Update {
    var started := Launched(u, env);
    if Legal(CompleteOp, started.stage) then AfterAttempts(started, env.complete) else started
  }

  function Launched(u: Update, env: Env): Update {
    if Legal(StartOp, u.stage) then Ran1(u, StartOp, [], env.start) else u
  }

  function LaunchEffects(us: Updates, id: nat, env: Env): seq<Effect> {
    if Legal(StartOp, StageAt(us, id)) then OpEffects(us, id, StartOp, [], env.start) else []
  }

  lemma {:induction false} LaunchRuns(us: Updates, env: Env)
    requires Inv(us) && us != [] && PastInstall(us[|us| - 1].stage)
    ensures var us' := us[|us| - 1 := Launched(us[|us| - 1], env)];
            && StepsOk(us, LaunchEffects(us, |us| - 1, env)) && Inv(us')
            && Replay(us, LaunchEffects(us, |us| - 1, env)) == us'
  {
    hide Replay, StepsOk;
    if Legal(StartOp, us[|us| - 1].stage) {
      OpStepsOk(us, StartOp, [], env.start);
      OpReplay(us, |us| - 1, StartOp, [], env.start);
    } else {
      NoSteps(us);
    }
    ReplayKeepsInv(us, LaunchEffects(us, |us| - 1, env));
  }

  function StartEffects(us: Updates, id: nat, env: Env): seq<Effect> {
    var fx0 := LaunchEffects(us, id, env);
    var us0 := Replay(us, fx0);
    fx0 + (if Legal(CompleteOp, StageAt(us0, id)) then Complete(us0, id, env.complete) else [])
  }

  lemma {:induction false} LaunchAndComplete(us: Updates, env: Env)
    requires Inv(us) && us != [] && PastInstall(us[|us| - 1].stage)
    ensures StepsOk(us, StartEffects(us, |us| - 1, env))
    ensures Replay(us, StartEffects(us, |us| - 1, env)) == us[|us| - 1 := AfterStart(us[|us| - 1], env)]
    ensures var u, u' := Launched(us[|us| - 1], env), AfterStart(us[|us| - 1], env);
            u'.ref == us[|us| - 1].ref && Window(InstallationCompleted, Some(Legal(CompleteOp, u.stage)), u'.done)
  {
    hide Replay, StepsOk;
    var id := |us| - 1;
    LaunchRuns(us, env);
    var fx0 := LaunchEffects(us, id, env);
    var us0 := us[id := Launched(us[id], env)];
    if Legal(CompleteOp, us0[id].stage) {
      CompleteLeaves(us0, env.complete);
      CompletedKeepsRef(us0[id], env.complete);
      Chain(us, fx0, Complete(us0, id, env.complete));
    } else {
      assert fx0 + [] == fx0;
    }
  }

  lemma {:induction false} CompletedKeepsRef(u: Update, rs: seq<OpResult>)
    ensures AfterAttempts(u, rs).ref == u.ref
    decreases |rs|
  {
    if rs != [] && Legal(CompleteOp, u.stage) { CompletedKeepsRef(Ran1(u, CompleteOp, [], rs[0]), rs[1..]); }
  }

  lemma {:induction false} StartShape(c: Ctx, us: Updates, env: Env)
    requires us != [] && c.runner == Some(|us| - 1) && PastInstall(us[|us| - 1].stage)
    ensures var ok := Legal(CompleteOp, Launched(us[|us| - 1], env).stage);
            && Start(c, us, env).fx == StartEffects(us, |us| - 1, env)
               + [Emit(|us| - 1, c.to.id, InstallationCompleted, Some(ok))]
            && Start(c, us, env).err == (if ok then None else Some(ErrStartFailed))
  {
    hide Replay, StepsOk;
    var id := |us| - 1;
    if Legal(StartOp, us[id].stage) {
      OpReplay(us, id, StartOp, [], env.start);
    } else {
      NoSteps(us);
    }
  }

  lemma {:induction false} StartRuns(c: Ctx, us: Updates, env: Env)
    requires Inv(us) && Drives(c, us, 1) && PastInstall(us[|us| - 1].stage)
    ensures var o := Start(c, us, env);
            StepsOk(us, o.fx) && Replay(us, o.fx) == us[|us| - 1 := AfterStart(us[|us| - 1], env)]
  {
    hide Replay, StepsOk;
    StartShape(c, us, env);
    LaunchAndComplete(us, env);
    StartEnds(us, StartEffects(us, |us| - 1, env), us[|us| - 1 := AfterStart(us[|us| - 1], env)],
              c.to.id, Legal(CompleteOp, Launched(us[|us| - 1], env).stage));
  }

  lemma {:induction false} StartEnds(us: Updates, fx: seq<Effect>, us': Updates, target: string, ok: bool)
    requires StepsOk(us, fx) && Replay(us, fx) == us'
    requires us' != [] && us'[|us'| - 1].ref == target && Window(InstallationCompleted, Some(ok), us'[|us'| - 1].done)
    ensures StepsOk(us, fx + [Emit(|us'| - 1, target, InstallationCompleted, Some(ok))])
    ensures Replay(us, fx + [Emit(|us'| - 1, target, InstallationCompleted, Some(ok))]) == us'
  {
    hide Replay, StepsOk;
    EmitOk(us', target, InstallationCompleted, Some(ok));
    Chain(us, fx, [Emit(|us'| - 1, target, InstallationCompleted, Some(ok))]);
  }

  lemma {:induction false} ExecuteLeaves(s: ActionState, level: nat, c: Ctx, us: Updates, cfg: Config, env: Env)
    requires Inv(us) && At(level, c, us) && level < 5 && Asks(s) <= level
    requires s.CheckState? ==> level == 0
    requires s.InitState? ==> level == 1
    ensures var o := Execute(s, c, us, cfg, env);
            StepsOk(us, o.fx) && (o.err.None? ==> At(Max(level, Gives(s)), o.c, Replay(us, o.fx)))
  {
    hide Replay, StepsOk;
    match s
    case CheckState(opts) => CheckLeaves(opts, c, us, cfg, env); NoSteps(us);
    case InitState => InitLeaves(c, us, env);
    case FetchState =>
      FetchLeaves(c, us, cfg, env);
      if level == 4 {
        NoSteps(us);
      }
    case StopState => StopLeaves(c, us, env);
    case InstallState => InstallLeaves(c, us, env);
    case StartState => StartLeaves(c, us, env);
  }

  /** Every ordered stage list makes well-placed effects only: each runner call in a legal stage, each
      event when exactly that much has been done, under the update's own target. */
  lemma {:induction false} RunIsWellPlaced(
    states: seq<ActionState>, level: nat, c: Ctx, us: Updates, cfg: Config, env: Env)
    requires Inv(us) && At(level, c, us) && Ordered(states, level)
    ensures StepsOk(us, Run(states, c, us, cfg, env).fx)
    decreases |states|
  {
    hide Replay, StepsOk, Execute;
    NoSteps(us);
    if states != [] {
      var s := states[0];
      ExecuteLeaves(s, level, c, us, cfg, env);
      var o := Execute(s, c, us, cfg, env);
      if o.err.None? {
        ReplayKeepsInv(us, o.fx);
        var c' := o.c.(num := o.c.num + 1);
        RunIsWellPlaced(states[1..], Max(level, Gives(s)), c', Replay(us, o.fx), cfg, env);
        StepsConcat(us, o.fx, Run(states[1..], c', Replay(us, o.fx), cfg, env).fx);
      }
    }
  }

  lemma {:induction false} ActIsWellPlaced(a: Action, us: Updates, cfg: Config, env: Env)
    requires Inv(us)
    ensures StepsOk(us, Act(a, us, cfg, env).fx)
  {
    hide Run, StepsOk;
    ActionsAreOrdered(a);
    RunIsWellPlaced(States(a), 0, FRESH, us, cfg, env);
  }

  // What keeps Install from being called too early.

  /** On an update that is driven and initialized Install is well placed if and only if the download has finished: it
      has no guard of its own. */
  lemma {:induction false} InstallIsSafeIff(c: Ctx, us: Updates, env: Env)
    requires Inv(us) && Drives(c, us, 1)
    ensures StepsOk(us, Install(c, us, env).fx) <==> us[|us| - 1].done >= 2
  {
    hide Replay, StepsOk;
    var u, fx := us[|us| - 1], Install(c, us, env).fx;
    if u.done >= 2 {
      InstallLeaves(c, us, env);
    } else {
      assert Consistent(u);
      var call := Call(|us| - 1, InstallOp, []);
      assert fx[..1] == [call];
      OneStep(us, call);
      if StepsOk(us, fx) { StepsPrefix(us, fx, 1); }
    }
  }

  /** Either Fetch or Stop before it is enough, and one of them is needed. */
  lemma {:induction false} InstallNeedsAGuard(opts: CheckOpts)
    ensures Ordered([CheckState(opts), InitState, StopState, InstallState], 0)
    ensures Ordered([CheckState(opts), InitState, FetchState, InstallState], 0)
    ensures !Ordered([CheckState(opts), InitState, InstallState], 0)
  {
    var check := CheckState(opts);
    assert Ordered([], 4);
    OrderedStep(InstallState, [], 3);
    assert [InstallState] + [] == [InstallState];
    OrderedStep(StopState, [InstallState], 2);
    OrderedStep(FetchState, [InstallState], 2);
    OrderedStep(InitState, [StopState] + [InstallState], 1);
    OrderedStep(InitState, [FetchState] + [InstallState], 1);
    OrderedStep(check, [InitState] + ([StopState] + [InstallState]), 0);
    OrderedStep(check, [InitState] + ([FetchState] + [InstallState]), 0);
    assert [check] + ([InitState] + ([StopState] + [InstallState])) == [check, InitState, StopState, InstallState];
    assert [check] + ([InitState] + ([FetchState] + [InstallState])) == [check, InitState, FetchState, InstallState];
    var l: seq<ActionState> := [check, InitState, InstallState];
    assert l[1..] == [InitState, InstallState] && l[1..][1..] == [InstallState];
    assert !Ordered([InstallState], 2);
    assert !Ordered([InitState, InstallState], 1);
  }
}
