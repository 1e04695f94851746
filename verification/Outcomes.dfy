// What a run answers, told from its effects alone: its error from the last event and the
// runner calls before it, the wait of a poll, what follows a stop that fails, and what
// the context knows in the end.

module Outcomes {
  import opened Options
  import opened Targets
  import opened Runner
  import opened Stages
  import opened Histories
  import opened GoodRuns
  import opened Stepwise
  import opened Safety
  import opened Stopping
  import opened Daemon
  import Grammar
  import FreeSpace

  predicate Calls(fx: seq<Effect>, op: Op) {
    exists i :: 0 <= i < |fx| && fx[i].Call? && fx[i].op == op
  }

  /** The last effect is a report of this kind, of a failure. */
  predicate FailsAt(fx: seq<Effect>, kind: Kind) {
    fx != [] && var e := fx[|fx| - 1]; e.Emit? && e.kind == kind && e.success == Some(false)
  }

  /** The error of a run that has got past Check, as its effects tell it. */
  function Told(fx: seq<Effect>): Option<Error> {
    if FailsAt(fx, InitCompleted) then Some(ErrInitFailed)
    else if FailsAt(fx, DownloadCompleted) then Some(if Calls(fx, FetchOp) then ErrFetchFailed else ErrFetchNoSpace)
    else if FailsAt(fx, InstallationCompleted) then
      Some(if Calls(fx, StartOp) then ErrStartFailed
           else if Calls(fx, InstallOp) then ErrInstallFailed
           else ErrStopAppsFailed)
    else None
  }

  // The stages in their order.

  function Turn(s: ActionState): nat {
    match s
    case CheckState(_) => 0
    case InitState => 1
    case FetchState => 2
    case StopState => 3
    case InstallState => 4
    case StartState => 5
  }

  function OpTurn(op: Op): nat {
    match op
    case InitOp => 1
    case FetchOp => 2
    case InstallOp => 4
    case StartOp => 5
    case CompleteOp => 5
  }

  /** No call of a later stage's operation, and no cancellation. */
  predicate Within(fx: seq<Effect>, turn: nat) {
    forall i :: 0 <= i < |fx| ==> !fx[i].Cancel? && (fx[i].Call? ==> OpTurn(fx[i].op) <= turn)
  }

  /** Later stages come later. */
  predicate InTurn(states: seq<ActionState>, turn: nat) {
    states == [] || (turn < Turn(states[0]) && InTurn(states[1..], Turn(states[0])))
  }

  lemma {:induction false} WithinConcat(a: seq<Effect>, b: seq<Effect>, turn: nat)
    requires Within(a, turn) && Within(b, turn)
    ensures Within(a + b, turn)
  {
  }

  lemma {:induction false} CallsConcat(a: seq<Effect>, b: seq<Effect>, op: Op)
    ensures Calls(a + b, op) <==> Calls(a, op) || Calls(b, op)
  {
    var fx := a + b;
    assert forall i :: 0 <= i < |a| ==> fx[i] == a[i];
    assert forall i :: 0 <= i < |b| ==> fx[|a| + i] == b[i];
  }

  /** What is told does not depend on effects before it, if they call no operation of the later stages. */
  lemma {:induction false} ToldLater(pre: seq<Effect>, fx: seq<Effect>, turn: nat)
    requires Within(pre, turn) && Told(pre).None?
    requires FailsAt(fx, DownloadCompleted) ==> turn < 2
    requires FailsAt(fx, InstallationCompleted) ==> turn < 4 || (turn < 5 && Calls(fx, InstallOp)) || Calls(fx, StartOp)
    ensures Told(pre + fx) == Told(fx)
  {
    if fx == [] {
      assert pre + fx == pre;
    } else {
      CallsConcat(pre, fx, FetchOp);
      CallsConcat(pre, fx, InstallOp);
      CallsConcat(pre, fx, StartOp);
    }
  }

  // One stage.

  /** A stage tells its own error, and calls its own operation only. */
  predicate StageTells(s: ActionState, o: Out) {
    && Told(o.fx) == o.err && Within(o.fx, Turn(s))
    && (FailsAt(o.fx, DownloadCompleted) ==> Turn(s) == 2)
    && (FailsAt(o.fx, InstallationCompleted) ==>
          Turn(s) == 3 || (Turn(s) == 4 && Calls(o.fx, InstallOp)) || Calls(o.fx, StartOp))
  }

  lemma {:induction false} InitTells(c: Ctx, us: Updates, env: Env)
    requires Checked(c, us)
    ensures StageTells(InitState, Init(c, us, env))
  {
    hide Replay, AppsToInit;
  }

  lemma {:induction false} FetchTells(c: Ctx, us: Updates, cfg: Config, env: Env)
    requires Inv(us) && Drives(c, us, 1)
    ensures StageTells(FetchState, Fetch(c, us, cfg, env))
  {
    hide Required;
    assert Consistent(us[|us| - 1]);
    var fx := Fetch(c, us, cfg, env).fx;
    if Legal(FetchOp, us[|us| - 1].stage) && !NoSpace(cfg, env) { assert fx[1].Call? && fx[1].op.FetchOp?; }
  }

  lemma {:induction false} StopTells(c: Ctx, us: Updates, env: Env)
    requires Inv(us) && Drives(c, us, 2)
    ensures StageTells(StopState, Stop(c, us, env))
  {
    hide AppsToStop;
    assert Consistent(us[|us| - 1]);
  }

  lemma {:induction false} InstallTells(c: Ctx, us: Updates, env: Env)
    requires Drives(c, us, 0)
    ensures StageTells(InstallState, Install(c, us, env))
  {
    var fx := Install(c, us, env).fx;
    if !PastInstall(us[|us| - 1].stage) { assert fx[0].Call? && fx[0].op.InstallOp?; }
  }

  lemma {:induction false} CompleteWithin(us: Updates, id: nat, rs: seq<OpResult>)
    ensures Within(Complete(us, id, rs), 5)
    decreases |rs|
  {
    hide Replay;
    if rs != [] {
      var fx := OpEffects(us, id, CompleteOp, [], rs[0]);
      CompleteWithin(Replay(us, fx), id, rs[1..]);
      WithinConcat(fx, Complete(Replay(us, fx), id, rs[1..]), 5);
    }
  }

  lemma {:induction false} StartTells(c: Ctx, us: Updates, env: Env)
    requires Inv(us) && Drives(c, us, 3)
    ensures StageTells(StartState, Start(c, us, env))
  {
    hide Replay, Complete;
    var id := |us| - 1;
    assert Consistent(us[id]);
    assert PastInstall(us[id].stage);
    var fx0 := if Legal(StartOp, us[id].stage) then OpEffects(us, id, StartOp, [], env.start) else [];
    CompleteWithin(Replay(us, fx0), id, env.complete);
    var fx := Start(c, us, env).fx;
    if Legal(StartOp, us[id].stage) { assert fx[0].Call? && fx[0].op.StartOp?; }
  }

  lemma {:induction false} EachTells(s: ActionState, level: nat, c: Ctx, us: Updates, cfg: Config, env: Env)
    requires Inv(us) && At(level, c, us) && 1 <= level <= 4 && GoodOrder([s], level)
    ensures StageTells(s, Execute(s, c, us, cfg, env))
  {
    hide StageTells, Init, Fetch, Stop, Install, Start, Inv, Execute;
    ExecuteIs(c, us, cfg, env);
    match s {
      case InitState => InitTells(c, us, env);
      case FetchState => FetchTells(c, us, cfg, env);
      case StopState => StopTells(c, us, env);
      case InstallState => InstallTells(c, us, env);
      case StartState => StartTells(c, us, env);
    }
  }

  // Whole runs.

  /** A list of stages that come in turn tells its error, whatever the stages before it have done. */
  lemma {:induction false} RunTells(
    states: seq<ActionState>, level: nat, turn: nat, pre: seq<Effect>, c: Ctx, us: Updates, cfg: Config, env: Env)
    requires Inv(us) && At(level, c, us) && 1 <= level && GoodOrder(states, level) && InTurn(states, turn)
    requires Ordered(states, level) && Within(pre, turn) && turn <= 5 && Told(pre).None?
    ensures var o := Run(states, c, us, cfg, env); Told(pre + o.fx) == o.err && Within(pre + o.fx, 5)
    decreases |states|
  {
    hide Run, Execute, Replay, StepsOk, Inv, Told, At, StageTells;
    if states == [] {
      RunNone(c, us, cfg, env);
      assert pre + [] == pre;
    } else {
      var s, o := states[0], Execute(states[0], c, us, cfg, env);
      assert GoodOrder([s], level) by { assert [s][1..] == []; }
      RunByStages(states, c, us, cfg, env);
      EachTells(s, level, c, us, cfg, env);
      StageFollows(pre, s, o, turn);
      if o.err.None? {
        ExecuteLeaves(s, level, c, us, cfg, env);
        ReplayKeepsInv(us, o.fx);
        var c', us' := o.c.(num := o.c.num + 1), Replay(us, o.fx);
        Grammar.NumIsFree(Max(level, Gives(s)), o.c, us', o.c.num + 1);
        RunTells(states[1..], Max(level, Gives(s)), Turn(s), pre + o.fx, c', us', cfg, env);
        var rest := Run(states[1..], c', us', cfg, env);
        assert pre + o.fx + rest.fx == pre + (o.fx + rest.fx);
      }
    }
  }

  lemma {:induction false} StageFollows(pre: seq<Effect>, s: ActionState, o: Out, turn: nat)
    requires StageTells(s, o) && turn < Turn(s) && Within(pre, turn) && Told(pre).None?
    ensures Told(pre + o.fx) == o.err && Within(pre + o.fx, Turn(s)) && Turn(s) <= 5
  {
    hide Told;
    ToldLater(pre, o.fx, turn);
  }

  lemma {:induction false} ListsAreInTurn(a: Action)
    ensures InTurn(AfterCheck(a), 0) && GoodOrder(AfterCheck(a), 1) && Ordered(AfterCheck(a), 1)
  {
    var l := AfterCheck(a);
    ActionsAreOrdered(a);
    ListsAreGood();
    StagesAre(0, UpdateOpts(false, false, 0, false));
    assert l == AFTER_CHECK || l == AFTER_CHECK[..2] || l == AFTER_CHECK[..4];
    assert InTurn([], 5) && InTurn([], 4) && InTurn([], 2);
    if l == AFTER_CHECK[..2] {
      assert l[1..] == [FetchState] && l[1..][1..] == [];
    } else {
      assert l[1..][1..][1..][0] == InstallState && l[1..][1..][0] == StopState;
      if l == AFTER_CHECK {
        assert l[1..][1..][1..][1..] == [StartState] && l[1..][1..][1..][1..][1..] == [];
        assert InTurn(l[1..][1..][1..][1..], 4);
      } else {
        assert l[1..][1..][1..][1..] == [];
      }
      assert InTurn(l[1..][1..][1..], 3);
      assert InTurn(l[1..][1..], 2);
    }
  }

  /** The error of a run that gets past Check is the one that its effects tell, and a run that does not get past Check
      has none. */
  lemma {:induction false} ActTells(a: Action, us: Updates, cfg: Config, env: Env)
    requires Inv(us)
    ensures var o, check := Act(a, us, cfg, env), Check(Opts(a), FRESH, us, cfg, env);
            && (check.err.None? ==> o.err == Told(o.fx))
            && (check.err.Some? ==> o.err == check.err && o.fx == [])
            && Within(o.fx, 5)
  {
    hide Act, Run, Check, AfterCheck, Told, Inv, Checked;
    ActIs(a, us, cfg, env);
    var check := Check(Opts(a), FRESH, us, cfg, env);
    if check.err.None? {
      ListsAreInTurn(a);
      CheckLeaves(Opts(a), FRESH, us, cfg, env);
      var c := check.c.(num := check.c.num + 1);
      Grammar.CheckedIsFree(check.c, us, check.c.num + 1);
      NothingTold();
      RunTells(AfterCheck(a), 1, 0, [], c, us, cfg, env);
      var o := Run(AfterCheck(a), c, us, cfg, env);
      assert [] + o.fx == o.fx;
    }
  }

  lemma {:induction false} NothingTold()
    ensures Told([]).None? && Within([], 0)
  {
  }

  /** A poll asks for the next one at once if and only if it has canceled an update, or its effects end in the report
      that the apps could not be started. */
  lemma {:induction false} NowaitIff(us: Updates, cfg: Config, env: Env)
    requires Inv(us)
    ensures var it := Iterate(us, cfg, env);
            it.nowait <==>
              || (exists i :: 0 <= i < |it.fx| && it.fx[i].Cancel?)
              || (Calls(it.fx, StartOp) && FailsAt(it.fx, InstallationCompleted))
  {
    hide Act, Check, Replay, AfterCheck, Inv;
    var o, it := Act(POLL, us, cfg, env), Iterate(us, cfg, env);
    ActTells(POLL, us, cfg, env);
    ToldStart(o.fx);
    NewerVersionIff(us, cfg, env);
    NoLateErrors(Opts(POLL), us, cfg, env);
    if o.err == Some(ErrNewerVersionIsAvailable) {
      ToldIsNoCheck(o.fx);
      assert o.fx == [];
      NoSteps(us);
      assert it.fx == CancelEffects(us, true, env.cancel);
      if it.fx != [] { assert it.fx[0].Cancel?; }
    }
  }

  lemma {:induction false} ToldStart(fx: seq<Effect>)
    ensures Told(fx) == Some(ErrStartFailed) <==> Calls(fx, StartOp) && FailsAt(fx, InstallationCompleted)
  {
  }

  lemma {:induction false} ToldIsNoCheck(fx: seq<Effect>)
    ensures Told(fx) != Some(ErrNewerVersionIsAvailable)
  {
  }

  lemma {:induction false} NoLateErrors(opts: CheckOpts, us: Updates, cfg: Config, env: Env)
    ensures Check(opts, FRESH, us, cfg, env).err !in {Some(ErrStartFailed), Some(ErrStopAppsFailed)}
  {
    hide Diff, FromTarget, LoadTargets, InSync, TargetOf, Latest, SyncTarget, CountFailed;
  }

  // A stop that fails, and one that succeeds.

  /** Apps are stopped last but one, before the report of a failure, and nothing has been installed. */
  predicate StopIsLast(fx: seq<Effect>) {
    forall i :: 0 <= i < |fx| && fx[i].StopApps? ==>
      i == |fx| - 2 && FailsAt(fx, InstallationCompleted) && Within(fx, 3)
  }

  lemma {:induction false} OthersStopNothing(s: ActionState, c: Ctx, us: Updates, cfg: Config, env: Env)
    requires !s.CheckState? && !s.StopState?
    ensures !Stops(Execute(s, c, us, cfg, env).fx)
  {
    hide Init, Fetch, Install, Start, Execute;
    ExecuteIs(c, us, cfg, env);
    match s {
      case InitState => InitStopsNothing(c, us, env, []);
      case FetchState => FetchStopsNothing(c, us, cfg, env, []);
      case InstallState => InstallStopsNothing(c, us, env, []);
      case StartState => StartStopsNothing(c, us, env, []);
      case StopState => assert false;
    }
  }

  lemma {:induction false} FailedStop(pre: seq<Effect>, c: Ctx, us: Updates, env: Env)
    requires !env.stop && !Stops(pre) && Within(pre, 2)
    ensures var o := Stop(c, us, env);
            StopIsLast(pre + o.fx) && (Stops(o.fx) ==> o.err.Some?)
  {
    hide AppsToStop;
    var fx := pre + Stop(c, us, env).fx;
    assert forall i :: 0 <= i < |pre| ==> fx[i] == pre[i];
  }

  lemma {:induction false} NoStopIsLast(a: seq<Effect>, b: seq<Effect>)
    requires !Stops(a) && !Stops(b)
    ensures !Stops(a + b) && StopIsLast(a + b)
  {
  }

  lemma {:induction false} RunStopsLast(
    states: seq<ActionState>, level: nat, turn: nat, pre: seq<Effect>, c: Ctx, us: Updates, cfg: Config, env: Env)
    requires Inv(us) && At(level, c, us) && 1 <= level && GoodOrder(states, level) && InTurn(states, turn)
    requires Ordered(states, level) && Within(pre, turn) && !Stops(pre) && !env.stop
    ensures StopIsLast(pre + Run(states, c, us, cfg, env).fx)
    decreases |states|
  {
    hide Run, Execute, Replay, StepsOk, Inv, At, StageTells, StopIsLast, Stops;
    if states == [] {
      RunNone(c, us, cfg, env);
      NoStops();
      NoStopIsLast(pre, []);
    } else {
      var s, o := states[0], Execute(states[0], c, us, cfg, env);
      assert GoodOrder([s], level) by { assert [s][1..] == []; }
      RunByStages(states, c, us, cfg, env);
      ExecuteIs(c, us, cfg, env);
      if s.StopState? { FailedStop(pre, c, us, env); } else { OthersStopNothing(s, c, us, cfg, env); }
      if !Stops(o.fx) { NoStopIsLast(pre, o.fx); }
      if o.err.None? {
        EachTells(s, level, c, us, cfg, env);
        StageWithin(pre, s, o, turn);
        ExecuteLeaves(s, level, c, us, cfg, env);
        ReplayKeepsInv(us, o.fx);
        var c', us' := o.c.(num := o.c.num + 1), Replay(us, o.fx);
        Grammar.NumIsFree(Max(level, Gives(s)), o.c, us', o.c.num + 1);
        RunStopsLast(states[1..], Max(level, Gives(s)), Turn(s), pre + o.fx, c', us', cfg, env);
        var rest := Run(states[1..], c', us', cfg, env);
        assert pre + o.fx + rest.fx == pre + (o.fx + rest.fx);
      }
    }
  }

  lemma {:induction false} NoStops()
    ensures !Stops([])
  {
  }

  lemma {:induction false} StageWithin(pre: seq<Effect>, s: ActionState, o: Out, turn: nat)
    requires StageTells(s, o) && turn < Turn(s) && Within(pre, turn)
    ensures Within(pre + o.fx, Turn(s))
  {
  }

  predicate InstallFollows(states: seq<ActionState>) {
    forall i :: 0 <= i < |states| && states[i].StopState? ==> i + 1 < |states| && states[i + 1].InstallState?
  }

  lemma {:induction false} StopsConcatIff(a: seq<Effect>, b: seq<Effect>)
    ensures Stops(a + b) <==> Stops(a) || Stops(b)
  {
    var fx := a + b;
    assert forall i :: 0 <= i < |a| ==> fx[i] == a[i];
    assert forall i :: 0 <= i < |b| ==> fx[|a| + i] == b[i];
  }

  /** Install after a Stop that has stopped apps calls the runner. */
  lemma {:induction false} InstallIsCalled(c: Ctx, us: Updates, env: Env, c': Ctx)
    requires c'.runner == c.runner && Stops(Stop(c, us, env).fx)
    ensures Calls(Install(c', us, env).fx, InstallOp)
  {
    hide AppsToStop;
    assert !PastInstall(StageAt(us, Id(c)));
    assert Install(c', us, env).fx[0].Call?;
  }

  lemma {:induction false} StopErrs(s: ActionState, c: Ctx, us: Updates, cfg: Config, env: Env)
    requires !s.CheckState? && env.stop
    ensures Execute(s, c, us, cfg, env).err != Some(ErrStopAppsFailed)
    ensures s.StopState? ==> Execute(s, c, us, cfg, env).c == c
  {
    hide Replay, OpEffects, Complete, OpSucceeds, AppsToStop;
  }

  lemma {:induction false} RunStopsThenInstalls(
    states: seq<ActionState>, level: nat, c: Ctx, us: Updates, cfg: Config, env: Env)
    requires Inv(us) && At(level, c, us) && 1 <= level && GoodOrder(states, level) && Ordered(states, level)
    requires InstallFollows(states) && env.stop
    ensures var o := Run(states, c, us, cfg, env);
            (Stops(o.fx) ==> Calls(o.fx, InstallOp)) && o.err != Some(ErrStopAppsFailed)
    decreases |states|
  {
    hide Run, Execute, Replay, StepsOk, Inv, At, Stops, Calls, Stop, Install;
    if states == [] {
      RunNone(c, us, cfg, env);
      NoStops();
    } else {
      var s, o := states[0], Execute(states[0], c, us, cfg, env);
      RunByStages(states, c, us, cfg, env);
      ExecuteIs(c, us, cfg, env);
      StopErrs(s, c, us, cfg, env);
      var level', c', us' := Max(level, Gives(s)), o.c.(num := o.c.num + 1), Replay(us, o.fx);
      var rest := Run(states[1..], c', us', cfg, env);
      if s.StopState? {
        StopNow(level, c, us, env);
        if Stops(o.fx) && o.err.None? {
          InstallIsCalled(c, us, env, c');
          RunByStages(states[1..], c', us, cfg, env);
          ExecuteIs(c', us, cfg, env);
          var next := Install(c', us, env);
          CallsConcat(next.fx, Run(states[1..][1..], next.c.(num := next.c.num + 1), Replay(us, next.fx), cfg, env).fx,
                      InstallOp);
        }
      } else {
        OthersStopNothing(s, c, us, cfg, env);
      }
      if o.err.None? {
        ExecuteLeaves(s, level, c, us, cfg, env);
        ReplayKeepsInv(us, o.fx);
        Grammar.NumIsFree(level', o.c, us', o.c.num + 1);
        RunStopsThenInstalls(states[1..], level', c', us', cfg, env);
        StopsConcatIff(o.fx, rest.fx);
        CallsConcat(o.fx, rest.fx, InstallOp);
      }
    }
  }

  /** Stop changes no record, and stops nothing if it is itself turned away. */
  lemma {:induction false} StopNow(level: nat, c: Ctx, us: Updates, env: Env)
    requires Inv(us) && At(level, c, us) && 2 <= level < 5 && env.stop
    ensures Replay(us, Stop(c, us, env).fx) == us && (Stop(c, us, env).err.Some? ==> !Stops(Stop(c, us, env).fx))
  {
    hide Replay, AppsToStop, StepsOk;
    Grammar.AtDrives(level, c, us);
    StopLeaves(c, us, env);
  }

  /** In every run, if apps are stopped and that fails, the effect after it reports the failure and is the last one,
      nothing is installed, and the error says so. If it succeeds the installation is called for. */
  lemma {:induction false} StopDecides(a: Action, us: Updates, cfg: Config, env: Env)
    requires Inv(us)
    ensures var o := Act(a, us, cfg, env);
            && (o.err == Some(ErrStopAppsFailed) <==> Stops(o.fx) && !env.stop)
            && (Stops(o.fx) && env.stop ==> Calls(o.fx, InstallOp))
            && (Stops(o.fx) && !env.stop ==>
                  !Calls(o.fx, InstallOp) && StopIsLast(o.fx) && FailsAt(o.fx, InstallationCompleted))
  {
    hide Act, Run, Check, AfterCheck, Inv, Checked, Told;
    ActIs(a, us, cfg, env);
    ActTells(a, us, cfg, env);
    var check, o := Check(Opts(a), FRESH, us, cfg, env), Act(a, us, cfg, env);
    NoLateErrors(Opts(a), us, cfg, env);
    NoStops();
    if check.err.None? {
      ListsAreInTurn(a);
      InstallFollowsStop(a);
      CheckLeaves(Opts(a), FRESH, us, cfg, env);
      var c := check.c.(num := check.c.num + 1);
      Grammar.CheckedIsFree(check.c, us, check.c.num + 1);
      NothingTold();
      if env.stop {
        RunStopsThenInstalls(AfterCheck(a), 1, c, us, cfg, env);
      } else {
        RunStopsLast(AfterCheck(a), 1, 0, [], c, us, cfg, env);
        assert [] + o.fx == o.fx;
        if Stops(o.fx) { StopIsTold(o.fx); }
        RunStopErrs(AfterCheck(a), c, us, cfg, env);
      }
    }
  }

  lemma {:induction false} StopIsTold(fx: seq<Effect>)
    requires StopIsLast(fx) && Stops(fx)
    ensures Told(fx) == Some(ErrStopAppsFailed) && !Calls(fx, InstallOp) && FailsAt(fx, InstallationCompleted)
  {
  }

  lemma {:induction false} InstallFollowsStop(a: Action)
    ensures InstallFollows(AfterCheck(a)) && forall i :: 0 <= i < |AfterCheck(a)| ==> !AfterCheck(a)[i].CheckState?
  {
  }

  /** The error comes from stopping apps only. */
  lemma {:induction false} RunStopErrs(states: seq<ActionState>, c: Ctx, us: Updates, cfg: Config, env: Env)
    requires forall i :: 0 <= i < |states| ==> !states[i].CheckState?
    ensures var o := Run(states, c, us, cfg, env); o.err == Some(ErrStopAppsFailed) ==> Stops(o.fx)
    decreases |states|
  {
    hide Run, Execute, Replay, Stops;
    if states == [] {
      RunNone(c, us, cfg, env);
    } else {
      RunByStages(states, c, us, cfg, env);
      StageStopErrs(states[0], c, us, cfg, env);
      var o := Execute(states[0], c, us, cfg, env);
      if o.err.None? {
        var c', us' := o.c.(num := o.c.num + 1), Replay(us, o.fx);
        RunStopErrs(states[1..], c', us', cfg, env);
        StopsConcatIff(o.fx, Run(states[1..], c', us', cfg, env).fx);
      }
    }
  }

  lemma {:induction false} StageStopErrs(s: ActionState, c: Ctx, us: Updates, cfg: Config, env: Env)
    requires !s.CheckState?
    ensures var o := Execute(s, c, us, cfg, env); o.err == Some(ErrStopAppsFailed) ==> Stops(o.fx)
  {
    hide Replay, OpEffects, Complete, OpSucceeds, AppsToStop;
    if s.StopState? && Execute(s, c, us, cfg, env).err == Some(ErrStopAppsFailed) {
      assert Execute(s, c, us, cfg, env).fx[1].StopApps?;
    }
  }

  // What the context knows in the end.

  /** The end of an installation has been reported. */
  predicate Ends(fx: seq<Effect>) {
    exists i :: 0 <= i < |fx| && fx[i].Emit? && fx[i].kind.InstallationCompleted?
  }

  lemma {:induction false} EndsConcat(a: seq<Effect>, b: seq<Effect>)
    ensures Ends(a + b) <==> Ends(a) || Ends(b)
  {
    var fx := a + b;
    assert forall i :: 0 <= i < |a| ==> fx[i] == a[i];
    assert forall i :: 0 <= i < |b| ==> fx[|a| + i] == b[i];
  }

  /** The status is the one read last: after the end of an installation if one has been reported and it can be read. */
  predicate KnowsStatus(o: Out, c: Ctx, env: Env) {
    o.c.status == if Ends(o.fx) && env.statusAfter.Some? then env.statusAfter else c.status
  }

  lemma {:induction false} InitKnows(c: Ctx, us: Updates, env: Env)
    ensures KnowsStatus(Init(c, us, env), c, env) && !Ends(Init(c, us, env).fx)
  {
    hide Replay;
  }

  lemma {:induction false} FetchKnows(c: Ctx, us: Updates, cfg: Config, env: Env)
    ensures KnowsStatus(Fetch(c, us, cfg, env), c, env) && !Ends(Fetch(c, us, cfg, env).fx)
  {
    hide Required;
  }

  lemma {:induction false} StopKnows(c: Ctx, us: Updates, env: Env)
    ensures KnowsStatus(Stop(c, us, env), c, env) && (Ends(Stop(c, us, env).fx) ==> Stop(c, us, env).err.Some?)
  {
    hide AppsToStop;
    var o := Stop(c, us, env);
    if o.err == Some(ErrStopAppsFailed) { assert o.fx[2].kind.InstallationCompleted?; }
  }

  lemma {:induction false} InstallKnows(c: Ctx, us: Updates, env: Env)
    ensures KnowsStatus(Install(c, us, env), c, env) && (Ends(Install(c, us, env).fx) ==> Install(c, us, env).err.Some?)
  {
    var o := Install(c, us, env);
    if o.err.Some? { assert o.fx[|o.fx| - 1].kind.InstallationCompleted?; }
  }

  lemma {:induction false} StartKnows(c: Ctx, us: Updates, env: Env)
    requires PastInstall(StageAt(us, Id(c)))
    ensures KnowsStatus(Start(c, us, env), c, env)
  {
    hide Replay, Complete;
    var o := Start(c, us, env);
    assert o.fx[|o.fx| - 1].kind.InstallationCompleted?;
  }

  lemma {:induction false} RunKnows(states: seq<ActionState>, level: nat, c: Ctx, us: Updates, cfg: Config, env: Env)
    requires Inv(us) && At(level, c, us) && 1 <= level && GoodOrder(states, level) && Ordered(states, level)
    ensures KnowsStatus(Run(states, c, us, cfg, env), c, env)
    decreases |states|
  {
    hide Run, Execute, Replay, StepsOk, Inv, Ends, Init, Fetch, Stop, Install, Start;
    if states == [] {
      RunNone(c, us, cfg, env);
      NothingEnds();
    } else {
      var s, o := states[0], Execute(states[0], c, us, cfg, env);
      RunByStages(states, c, us, cfg, env);
      ExecuteIs(c, us, cfg, env);
      match s {
        case InitState => InitKnows(c, us, env);
        case FetchState => FetchKnows(c, us, cfg, env);
        case StopState => StopKnows(c, us, env);
        case InstallState => InstallKnows(c, us, env);
        case StartState => StartsKnown(level, c, us, env);
      }
      if o.err.None? {
        var c', us' := o.c.(num := o.c.num + 1), Replay(us, o.fx);
        if s.StartState? {
          RunNone(c', us', cfg, env);
          assert o.fx + [] == o.fx;
        } else {
          ExecuteLeaves(s, level, c, us, cfg, env);
          ReplayKeepsInv(us, o.fx);
          Grammar.NumIsFree(Max(level, Gives(s)), o.c, us', o.c.num + 1);
          RunKnows(states[1..], Max(level, Gives(s)), c', us', cfg, env);
          EndsConcat(o.fx, Run(states[1..], c', us', cfg, env).fx);
        }
      }
    }
  }

  lemma {:induction false} NothingEnds()
    ensures !Ends([])
  {
  }

  lemma {:induction false} StartsKnown(level: nat, c: Ctx, us: Updates, env: Env)
    requires Inv(us) && At(level, c, us) && level == 4
    ensures KnowsStatus(Start(c, us, env), c, env)
  {
    hide Start;
    assert Consistent(us[|us| - 1]);
    StartKnows(c, us, env);
  }

  /** After a run the context has the status read last: that read at the end of the installation if its end has been
      reported and the status could be read then, and else the one that Check has left. */
  lemma {:induction false} ActKnowsStatus(a: Action, us: Updates, cfg: Config, env: Env)
    requires Inv(us)
    ensures KnowsStatus(Act(a, us, cfg, env), Check(Opts(a), FRESH, us, cfg, env).c, env)
  {
    hide Act, Run, Check, AfterCheck, Inv, Checked, Ends;
    ActIs(a, us, cfg, env);
    NothingEnds();
    var check := Check(Opts(a), FRESH, us, cfg, env);
    if check.err.None? {
      ListsAreInTurn(a);
      CheckLeaves(Opts(a), FRESH, us, cfg, env);
      Grammar.CheckedIsFree(check.c, us, check.c.num + 1);
      RunKnows(AfterCheck(a), 1, check.c.(num := check.c.num + 1), us, cfg, env);
    }
  }

  /** The storage usage after Fetch: the last one that could be read, and the requirement only if nothing has been read
      since; without a download it is left alone. */
  lemma {:induction false} FetchKnowsUsage(c: Ctx, us: Updates, cfg: Config, env: Env)
    ensures var o := Fetch(c, us, cfg, env);
            var total := FreeSpace.Uint64(FreeSpace.TotalNeed(env.blobs, cfg.block));
            && (o.c.alreadyFetched <==> c.alreadyFetched || (o.fx == [] && o.err.None?))
            && o.c.usage ==
               if Calls(o.fx, FetchOp) && env.usageFetched.Some? then Some(Storage(env.usageFetched.value, None))
               else if o.fx != [] && env.usageBefore.Some? then Some(Storage(env.usageBefore.value, Some(total)))
               else c.usage
  {
    hide FreeSpace.TotalNeed, FreeSpace.Uint64;
    var o := Fetch(c, us, cfg, env);
    if Legal(FetchOp, StageAt(us, Id(c))) && !NoSpace(cfg, env) { assert o.fx[1].Call?; }
  }

  /** After Start it is the one read then, if it could be read. */
  lemma {:induction false} StartKnowsUsage(c: Ctx, us: Updates, env: Env)
    ensures var o := Start(c, us, env);
            o.c.usage == if Ends(o.fx) && env.usageAfter.Some? then Some(Storage(env.usageAfter.value, None))
                         else c.usage
  {
    hide Replay, Complete;
    var o := Start(c, us, env);
    if PastInstall(StageAt(us, Id(c))) { assert o.fx[|o.fx| - 1].kind.InstallationCompleted?; }
  }
}
