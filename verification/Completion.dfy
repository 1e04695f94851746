// The last clause of the event grammar: when a run has reported success for an update,
// can a later run report it again?

module Completion {
  import opened Options
  import opened Targets
  import opened Runner
  import opened Stages
  import opened Histories
  import opened Safety
  import opened GoodRuns
  import opened Stepwise
  import opened Decisions
  import Grammar

  predicate IsSuccess(e: Effect) {
    e.Emit? && e.kind.InstallationCompleted? && e.success == Some(true)
  }

  /** Every completion attempt ends in an error that does not fail the update. */
  predicate AllAttemptsFail(rs: seq<OpResult>) {
    forall i :: 0 <= i < |rs| ==> rs[i] != Ran(Done) && rs[i] != Ran(Fatal)
  }

  // One run.

  /** A successful Start leaves the update open exactly if all its completion attempts have failed. */
  lemma {:induction false} StartLeavesOpenIff(c: Ctx, us: Updates, env: Env)
    requires Inv(us) && Drives(c, us, 1) && Start(c, us, env).err.None?
    ensures var us' := Replay(us, Start(c, us, env).fx);
            && |us'| == |us| && us'[|us| - 1].ref == us[|us| - 1].ref
            && (Current(us').Some? <==> AllAttemptsFail(env.complete))
            && (Current(us').Some? ==> Legal(CompleteOp, us'[|us| - 1].stage))
  {
    hide Replay, StartEffects, StepsOk, AfterAttempts;
    assert PastInstall(us[|us| - 1].stage);
    StartShape(c, us, env);
    StartRuns(c, us, env);
    var u := Launched(us[|us| - 1], env);
    Grammar.CompletionRepeatsIff(u, env.complete);
    CompletedKeepsRef(u, env.complete);
    if !Terminal(AfterAttempts(u, env.complete).stage) { OpenIsCompleting(u, env.complete); }
  }

  lemma {:induction false} OpenIsCompleting(u: Update, rs: seq<OpResult>)
    requires Legal(CompleteOp, u.stage) && !Terminal(AfterAttempts(u, rs).stage)
    ensures Legal(CompleteOp, AfterAttempts(u, rs).stage)
    decreases |rs|
  {
    if rs != [] {
      var u' := Ran1(u, CompleteOp, [], rs[0]);
      if Legal(CompleteOp, u'.stage) { OpenIsCompleting(u', rs[1..]); } else { AttemptsStay(u', rs[1..]); }
    }
  }

  lemma {:induction false} SuccessIsLast(c: Ctx, us: Updates, env: Env, i: nat)
    requires us != [] && c.runner == Some(|us| - 1)
    requires i < |Start(c, us, env).fx| && IsSuccess(Start(c, us, env).fx[i])
    ensures i == |Start(c, us, env).fx| - 1 && Start(c, us, env).err.None?
    ensures Start(c, us, env).fx[i].id == |us| - 1
  {
    hide Replay, StartEffects;
    if PastInstall(us[|us| - 1].stage) {
      StartShape(c, us, env);
      QuietStart(us, |us| - 1, env);
    }
  }

  lemma {:induction false} QuietStart(us: Updates, id: nat, env: Env)
    ensures forall i :: 0 <= i < |StartEffects(us, id, env)| ==> !StartEffects(us, id, env)[i].Emit?
  {
    hide Replay, Complete;
    Grammar.QuietComplete(Replay(us, LaunchEffects(us, id, env)), id, env.complete);
  }

  /** No success is reported and no completion is called for. */
  predicate Plain(fx: seq<Effect>) {
    forall i :: 0 <= i < |fx| ==> !IsSuccess(fx[i]) && !(fx[i].Call? && fx[i].op.CompleteOp?)
  }

  lemma {:induction false} InitIsPlain(c: Ctx, us: Updates, env: Env)
    ensures Plain(Init(c, us, env).fx)
  {
    hide Replay;
  }

  lemma {:induction false} FetchIsPlain(c: Ctx, us: Updates, cfg: Config, env: Env)
    ensures Plain(Fetch(c, us, cfg, env).fx)
  {
    hide Required;
  }

  lemma {:induction false} StopIsPlain(c: Ctx, us: Updates, env: Env)
    ensures Plain(Stop(c, us, env).fx)
  {
    hide AppsToStop;
  }

  lemma {:induction false} InstallIsPlain(c: Ctx, us: Updates, env: Env)
    ensures Plain(Install(c, us, env).fx)
  {
  }

  /** Only Start reports success or calls for completion. */
  lemma {:induction false} OthersArePlain(s: ActionState, c: Ctx, us: Updates, cfg: Config, env: Env)
    requires !s.StartState?
    ensures Plain(Execute(s, c, us, cfg, env).fx)
  {
    ExecuteIs(c, us, cfg, env);
    hide Execute, Check, Init, Fetch, Stop, Install, Start;
    match s {
      case CheckState(opts) => CheckIsQuiet(opts, c, us, cfg, env);
      case InitState => InitIsPlain(c, us, env);
      case FetchState => FetchIsPlain(c, us, cfg, env);
      case StopState => StopIsPlain(c, us, env);
      case InstallState => InstallIsPlain(c, us, env);
      case StartState => assert false;
    }
  }

  /** What a success report of a run says: it is the run's last effect, and the update is open exactly if all
      completion attempts have failed. */
  predicate Reported(us: Updates, fx: seq<Effect>, env: Env, i: nat)
    requires i < |fx| && fx[i].Emit?
  {
    var us' := Replay(us, fx);
    && i == |fx| - 1 && us' != [] && fx[i].id == |us'| - 1
    && (Current(us').Some? <==> AllAttemptsFail(env.complete))
    && (Current(us').Some? ==> Legal(CompleteOp, us'[|us'| - 1].stage))
  }

  lemma {:induction false} ReportAfter(us: Updates, a: seq<Effect>, b: seq<Effect>, env: Env, i: nat)
    requires i < |b| && b[i].Emit? && Reported(Replay(us, a), b, env, i)
    ensures Reported(us, a + b, env, |a| + i)
  {
    ReplayConcat(us, a, b);
  }

  lemma {:induction false} RunReports(
    states: seq<ActionState>, level: nat, c: Ctx, us: Updates, cfg: Config, env: Env, i: nat)
    requires Inv(us) && At(level, c, us) && Ordered(states, level)
    requires i < |Run(states, c, us, cfg, env).fx| && IsSuccess(Run(states, c, us, cfg, env).fx[i])
    ensures Reported(us, Run(states, c, us, cfg, env).fx, env, i)
    decreases |states|
  {
    hide Replay, StepsOk, Run, Execute, Inv, Reported, Start;
    if states == [] {
      RunNone(c, us, cfg, env);
    } else {
      RunByStages(states, c, us, cfg, env);
      var s, o := states[0], Execute(states[0], c, us, cfg, env);
      var fx := Run(states, c, us, cfg, env).fx;
      if s.StartState? {
        ExecuteIs(c, us, cfg, env);
        RunNone(o.c.(num := o.c.num + 1), Replay(us, o.fx), cfg, env);
        assert fx == o.fx;
        StartReports(c, us, env, i);
      } else {
        OthersArePlain(s, c, us, cfg, env);
        if i >= |o.fx| {
          ExecuteLeaves(s, level, c, us, cfg, env);
          ReplayKeepsInv(us, o.fx);
          var c', us' := o.c.(num := o.c.num + 1), Replay(us, o.fx);
          Grammar.NumIsFree(Max(level, Gives(s)), o.c, us', o.c.num + 1);
          var rest := Run(states[1..], c', us', cfg, env);
          assert fx[i] == rest.fx[i - |o.fx|];
          RunReports(states[1..], Max(level, Gives(s)), c', us', cfg, env, i - |o.fx|);
          ReportAfter(us, o.fx, rest.fx, env, i - |o.fx|);
        }
      }
    }
  }

  lemma {:induction false} StartReports(c: Ctx, us: Updates, env: Env, i: nat)
    requires Inv(us) && Drives(c, us, 1)
    requires i < |Start(c, us, env).fx| && IsSuccess(Start(c, us, env).fx[i])
    ensures Reported(us, Start(c, us, env).fx, env, i)
  {
    hide Replay, Start, Inv;
    SuccessIsLast(c, us, env, i);
    StartLeavesOpenIff(c, us, env);
  }

  // Later runs.

  /** An event is sent for the newest update of its moment. */
  lemma {:induction false} SentForNewest(us: Updates, fx: seq<Effect>, j: nat)
    requires Inv(us) && StepsOk(us, fx) && j < |fx| && fx[j].Emit?
    ensures var now := Replay(us, fx[..j]);
            Inv(now) && |us| <= |now| && StepsOk(us, fx[..j]) && fx[j].id == |now| - 1
  {
    hide Replay, StepsOk, Inv;
    StepsPrefix(us, fx, j + 1);
    assert fx[..j + 1] == fx[..j] + [fx[j]];
    StepsPrefix(us, fx, j);
    StepsSuffix(us, fx[..j], [fx[j]]);
    OneStep(Replay(us, fx[..j]), fx[j]);
    ReplayKeepsInv(us, fx[..j]);
  }

  /** A creation at the beginning stays. */
  lemma {:induction false} CreationStays(us: Updates, fx: seq<Effect>)
    requires Inv(us) && StepsOk(us, fx) && fx != [] && fx[0].New?
    ensures |us| < |Replay(us, fx)|
  {
    hide Replay, StepsOk, Inv;
    var create, rest := [fx[0]], fx[1..];
    assert fx == create + rest && fx[..1] == create;
    OneStep(us, fx[0]);
    StepsPrefix(us, fx, 1);
    ReplayKeepsInv(us, create);
    StepsSuffix(us, create, rest);
    ReplayKeepsInv(Replay(us, create), rest);
    ReplayConcat(us, create, rest);
  }

  /** A run sends no event for an update that has ended before it. */
  lemma {:induction false} RunIsSilent(a: Action, us: Updates, cfg: Config, env: Env, id: nat, j: nat)
    requires Inv(us) && id < |us| && Terminal(us[id].stage) && j < |Act(a, us, cfg, env).fx|
    ensures var e := Act(a, us, cfg, env).fx[j]; !(e.Emit? && e.id == id)
  {
    hide Act, Replay, StepsOk, Check, Inv;
    var fx := Act(a, us, cfg, env).fx;
    if fx[j].Emit? {
      ActIsWellPlaced(a, us, cfg, env);
      SentForNewest(us, fx, j);
      if Current(us).None? {
        ActIs(a, us, cfg, env);
        CreatesFirst(a, us, cfg, env);
        assert fx[0].New? && fx[..j][0] == fx[0];
        CreationStays(us, fx[..j]);
      }
    }
  }

  lemma {:induction false} HistoryIsSilent(us: Updates, steps: seq<Step>, id: nat, j: nat)
    requires Inv(us) && id < |us| && Terminal(us[id].stage) && j < |History(us, steps)|
    ensures var e := History(us, steps)[j]; !(e.Emit? && e.id == id)
  {
    hide Act, Replay, StepsOk;
    if steps != [] {
      var before, s := steps[..|steps| - 1], steps[|steps| - 1];
      var fx := History(us, before);
      if j < |fx| {
        HistoryIsSilent(us, before, id, j);
      } else {
        HistoryIsWellPlaced(us, before);
        OnlyForward(us, fx, id);
        var now := Replay(us, fx);
        if s.RunStep? { RunIsSilent(s.action, now, s.cfg, s.env, id, j - |fx|); }
      }
    }
  }

  predicate SucceedsIn(fx: seq<Effect>, id: nat) {
    exists j :: 0 <= j < |fx| && IsSuccess(fx[j]) && fx[j].id == id
  }

  lemma {:induction false} EmitsAreSent(fx: seq<Effect>, e: Effect)
    requires e in Emits(fx)
    ensures e in fx
  {
    if fx != [] && e != fx[|fx| - 1] { EmitsAreSent(fx[..|fx| - 1], e); }
  }

  lemma {:induction false} SilentStage(
    s: ActionState, rest: seq<ActionState>, id: nat, target: string, u: Update, apps: seq<string>)
    requires Legal(CompleteOp, u.stage) && !s.StartState?
    ensures GoodAllEvents([s] + rest, id, target, u, apps) == GoodAllEvents(rest, id, target, u, apps)
  {
    assert ([s] + rest)[1..] == rest;
    assert GoodNext(s, u, apps) == u && GoodEvents(s, id, target, u.stage) == [];
    assert [] + GoodAllEvents(rest, id, target, u, apps) == GoodAllEvents(rest, id, target, u, apps);
  }

  lemma {:induction false} EventsWhenCompleting(id: nat, target: string, u: Update, apps: seq<string>)
    requires Legal(CompleteOp, u.stage)
    ensures GoodAllEvents(AFTER_CHECK, id, target, u, apps) == [Emit(id, target, InstallationCompleted, Some(true))]
  {
    var start := [StartState];
    assert start[1..] == [];
    assert GoodAllEvents(start, id, target, u, apps) == [Emit(id, target, InstallationCompleted, Some(true))];
    hide GoodAllEvents;
    SilentStage(InstallState, start, id, target, u, apps);
    SilentStage(StopState, [InstallState] + start, id, target, u, apps);
    SilentStage(FetchState, [StopState] + ([InstallState] + start), id, target, u, apps);
    SilentStage(InitState, [FetchState] + ([StopState] + ([InstallState] + start)), id, target, u, apps);
    assert AFTER_CHECK == [InitState] + ([FetchState] + ([StopState] + ([InstallState] + start)));
  }

  /** An update that is being completed is completed, and its success reported, by any update run that goes well. */
  lemma {:induction false} NextRunReports(us: Updates, cfg: Config, env: Env, opts: UpdateOpts)
    requires Inv(us) && Good(cfg, env) && CanResume(us, cfg, env, opts) && Legal(CompleteOp, us[|us| - 1].stage)
    ensures SucceedsIn(Act(UpdateAction(-1, opts), us, cfg, env).fx, |us| - 1)
  {
    hide Act, Replay, Run, CanResume, ResumedContext, GoodAll, GoodAllEvents, GoodOrder, Emits, Good, GoodUntilStart;
    ResumeRuns(us, cfg, env, opts);
    var id, c := |us| - 1, ResumedContext(us, cfg, env, opts);
    ListsAreGood();
    GoodIsGood(cfg, env);
    GoodStates(AFTER_CHECK, 1, c, us, cfg, env);
    EventsWhenCompleting(id, c.to.id, us[id], Uris(c.to.apps));
    var fx, e := Run(AFTER_CHECK, c, us, cfg, env).fx, Emit(id, c.to.id, InstallationCompleted, Some(true));
    assert e in Emits(fx);
    EmitsAreSent(fx, e);
    var j :| 0 <= j < |fx| && fx[j] == e;
    assert IsSuccess(fx[j]);
  }

  /** Once a run has reported success for an update, some later history reports it again if and only if all completion
      attempts of that run failed without failing the update; otherwise no later event at all is sent for it. */
  lemma {:induction false} SuccessIsRepeatedIff(a: Action, us: Updates, cfg: Config, env: Env, i: nat)
    requires Inv(us) && i < |Act(a, us, cfg, env).fx| && IsSuccess(Act(a, us, cfg, env).fx[i])
    ensures var fx := Act(a, us, cfg, env).fx;
            var us' := Replay(us, fx);
            (exists steps :: SucceedsIn(History(us', steps), fx[i].id)) <==> AllAttemptsFail(env.complete)
  {
    hide Act, Replay, StepsOk, History, Run, AllAttemptsFail, Good, NoSpace, TargetOf;
    var fx := Act(a, us, cfg, env).fx;
    var us', id := Replay(us, fx), fx[i].id;
    ActIsWellPlaced(a, us, cfg, env);
    ReplayKeepsInv(us, fx);
    ActReports(a, us, cfg, env, i);
    if AllAttemptsFail(env.complete) {
      var ts := [Target(us'[id].ref, 0, [])];
      var opts, calm, any := UpdateOpts(false, false, 0, false), Calm(ts), Config(None, 0, 1);
      ListedIsFound(us'[id], calm.parse);
      NextRunReports(us', any, calm, opts);
      var step := RunStep(UpdateAction(-1, opts), any, calm, None);
      OneMoreRun(us', step);
      assert SucceedsIn(History(us', [step]), id);
    } else {
      forall steps ensures !SucceedsIn(History(us', steps), id) {
        NoMoreEvents(us', steps, id);
      }
    }
  }

  lemma {:induction false} ActReports(a: Action, us: Updates, cfg: Config, env: Env, i: nat)
    requires Inv(us) && i < |Act(a, us, cfg, env).fx| && IsSuccess(Act(a, us, cfg, env).fx[i])
    ensures Reported(us, Act(a, us, cfg, env).fx, env, i)
  {
    hide Run, Reported, IsSuccess;
    ActionsAreOrdered(a);
    RunReports(States(a), 0, FRESH, us, cfg, env, i);
  }

  lemma {:induction false} ListedIsFound(u: Update, parse: map<string, App>)
    ensures TargetOf(u, [Target(u.ref, 0, [])], parse).Some?
  {
  }

  lemma {:induction false} OneMoreRun(us: Updates, s: Step)
    requires s.RunStep? && s.died.None?
    ensures History(us, [s]) == Act(s.action, us, s.cfg, s.env).fx
  {
    hide Act;
    assert [s][..0] == [];
    NoSteps(us);
  }

  lemma {:induction false} NoMoreEvents(us: Updates, steps: seq<Step>, id: nat)
    requires Inv(us) && id < |us| && Terminal(us[id].stage)
    ensures !SucceedsIn(History(us, steps), id)
  {
    hide History;
    var fx := History(us, steps);
    forall j | 0 <= j < |fx| ensures !(IsSuccess(fx[j]) && fx[j].id == id) {
      HistoryIsSilent(us, steps, id, j);
    }
  }

  // Calls outside the legal stages.

  lemma {:induction false} PlainCallsAreLegal(us: Updates, fx: seq<Effect>)
    requires StepsOk(us, fx) && Plain(fx)
    ensures AllCallsLegal(us, fx)
  {
    hide Replay;
    if fx != [] { PlainCallsAreLegal(us, fx[..|fx| - 1]); }
  }

  /** A successful Start calls the runner in a legal stage only, if and only if none of its completion attempts but the
      last fails the update before one succeeds. */
  lemma {:induction false} StartCallsAreLegalIff(c: Ctx, us: Updates, env: Env)
    requires Inv(us) && Drives(c, us, 1) && Start(c, us, env).err.None?
    ensures AllCallsLegal(us, Start(c, us, env).fx) <==> !FailsEarly(env.complete)
  {
    hide Replay, StepsOk, AllCallsLegal, FailsEarly, Complete;
    assert PastInstall(us[|us| - 1].stage);
    StartShape(c, us, env);
    hide Start;
    var id := |us| - 1;
    var launch, us' := LaunchEffects(us, id, env), us[id := Launched(us[id], env)];
    LaunchRuns(us, env);
    PlainCallsAreLegal(us, launch);
    var attempts, last := Complete(us', id, env.complete), [Emit(id, c.to.id, InstallationCompleted, Some(true))];
    RetryIsIllegalIff(us', id, env.complete);
    CallsConcat(us, launch, attempts);
    CallsConcat(us, launch + attempts, last);
    QuietCalls(Replay(us, launch + attempts), last);
  }

  /** A Start that fails does not get as far as completion. */
  lemma {:induction false} FailingStartIsPlain(c: Ctx, us: Updates, env: Env)
    requires us != [] && c.runner == Some(|us| - 1) && Start(c, us, env).err.Some?
    ensures Plain(Start(c, us, env).fx)
  {
    hide Replay, Complete;
    if PastInstall(us[|us| - 1].stage) {
      StartShape(c, us, env);
      NoLaunchNoAttempts(us, env);
    }
  }

  lemma {:induction false} NoLaunchNoAttempts(us: Updates, env: Env)
    requires us != [] && !Legal(CompleteOp, Launched(us[|us| - 1], env).stage)
    ensures StartEffects(us, |us| - 1, env) == LaunchEffects(us, |us| - 1, env)
  {
    hide Replay, Complete;
    var id := |us| - 1;
    NoSteps(us);
    if Legal(StartOp, us[id].stage) { OpReplay(us, id, StartOp, [], env.start); }
  }

  predicate Reports(fx: seq<Effect>) {
    exists i :: 0 <= i < |fx| && IsSuccess(fx[i])
  }

  lemma {:induction false} ReportsConcat(a: seq<Effect>, b: seq<Effect>)
    ensures Reports(a + b) <==> Reports(a) || Reports(b)
  {
    var fx := a + b;
    assert forall i :: 0 <= i < |a| ==> fx[i] == a[i];
    assert forall i :: 0 <= i < |b| ==> fx[|a| + i] == b[i];
  }

  lemma {:induction false} StartRunsLegallyIff(c: Ctx, us: Updates, env: Env)
    requires Inv(us) && Drives(c, us, 1)
    ensures var fx := Start(c, us, env).fx; AllCallsLegal(us, fx) <==> !(Reports(fx) && FailsEarly(env.complete))
  {
    hide Replay, StepsOk, AllCallsLegal, FailsEarly, Start, IsSuccess;
    var o := Start(c, us, env);
    if o.err.None? {
      StartCallsAreLegalIff(c, us, env);
      SuccessIsReported(c, us, env);
    } else {
      FailingStartIsPlain(c, us, env);
      StartLeaves(c, us, env);
      PlainCallsAreLegal(us, o.fx);
    }
  }

  lemma {:induction false} SuccessIsReported(c: Ctx, us: Updates, env: Env)
    requires us != [] && c.runner == Some(|us| - 1) && Start(c, us, env).err.None?
    ensures Reports(Start(c, us, env).fx)
  {
    hide Replay, StartEffects;
    assert PastInstall(us[|us| - 1].stage);
    StartShape(c, us, env);
    var fx := Start(c, us, env).fx;
    assert IsSuccess(fx[|fx| - 1]);
  }

  lemma {:induction false} RunIsLegalIff(
    states: seq<ActionState>, level: nat, c: Ctx, us: Updates, cfg: Config, env: Env)
    requires Inv(us) && At(level, c, us) && Ordered(states, level)
    ensures var fx := Run(states, c, us, cfg, env).fx;
            AllCallsLegal(us, fx) <==> !(Reports(fx) && FailsEarly(env.complete))
    decreases |states|
  {
    hide Replay, StepsOk, Run, Execute, Inv, Start, AllCallsLegal, FailsEarly, IsSuccess;
    if states == [] {
      RunNone(c, us, cfg, env);
      QuietCalls(us, []);
    } else {
      RunByStages(states, c, us, cfg, env);
      var s, o := states[0], Execute(states[0], c, us, cfg, env);
      var c', us' := o.c.(num := o.c.num + 1), Replay(us, o.fx);
      if s.StartState? {
        ExecuteIs(c, us, cfg, env);
        RunNone(c', us', cfg, env);
        assert o.fx + [] == o.fx;
        StartRunsLegallyIff(c, us, env);
      } else {
        OthersArePlain(s, c, us, cfg, env);
        ExecuteLeaves(s, level, c, us, cfg, env);
        PlainCallsAreLegal(us, o.fx);
        if o.err.None? {
          ReplayKeepsInv(us, o.fx);
          Grammar.NumIsFree(Max(level, Gives(s)), o.c, us', o.c.num + 1);
          var rest := Run(states[1..], c', us', cfg, env);
          RunIsLegalIff(states[1..], Max(level, Gives(s)), c', us', cfg, env);
          CallsConcat(us, o.fx, rest.fx);
          ReportsConcat(o.fx, rest.fx);
        }
      }
    }
  }

  /** A run of any action calls the runner in legal stages only, unless it reports success after a completion attempt
      that failed the update and was not the last one. */
  lemma {:induction false} ActIsLegalIff(a: Action, us: Updates, cfg: Config, env: Env)
    requires Inv(us)
    ensures var fx := Act(a, us, cfg, env).fx;
            AllCallsLegal(us, fx) <==> !(Reports(fx) && FailsEarly(env.complete))
  {
    hide Run, AllCallsLegal, Reports, FailsEarly;
    ActionsAreOrdered(a);
    RunIsLegalIff(States(a), 0, FRESH, us, cfg, env);
  }

  lemma {:induction false} ResumedReports(us: Updates, cfg: Config, env: Env, opts: UpdateOpts)
    requires Inv(us) && GoodUntilStart(cfg, env) && CanResume(us, cfg, env, opts)
    requires Legal(CompleteOp, us[|us| - 1].stage)
    ensures Reports(Act(UpdateAction(-1, opts), us, cfg, env).fx)
  {
    hide Act, Run, Replay, Reports, IsSuccess, CanResume, ResumedContext, GoodAll, GoodUntilStart, Start, StartEffects;
    ResumeRuns(us, cfg, env, opts);
    var c := ResumedContext(us, cfg, env, opts);
    var last, front := |us| - 1, Run(FRONT, c, us, cfg, env);
    UpToStart(c, us, cfg, env);
    assert Consistent(us[last]);
    FrontLeaves(us[last], Uris(c.to.apps));
    assert us[last := us[last]] == us;
    StartShape(front.c, us, env);
    SuccessIsReported(front.c, us, env);
    ReportsConcat(front.fx, Start(front.c, us, env).fx);
  }

  /** Such a run. */
  lemma {:induction false} RunCanBeIllegal(cfg: Config)
    ensures var us, done := [Update("lmp-1", [], Started, 4)], Ran(Done);
            var run := UpdateAction(-1, UpdateOpts(false, false, 0, false));
            var env := Calm([Target("lmp-1", 1, [])]).(complete := [Ran(Fatal), done, done, done]);
            Inv(us) && !AllCallsLegal(us, Act(run, us, cfg, env).fx)
  {
    hide Act, AllCallsLegal, Reports;
    var us, done := [Update("lmp-1", [], Started, 4)], Ran(Done);
    var opts := UpdateOpts(false, false, 0, false);
    var env := Calm([Target("lmp-1", 1, [])]).(complete := [Ran(Fatal), done, done, done]);
    ResumedReports(us, cfg, env, opts);
    ActIsLegalIff(UpdateAction(-1, opts), us, cfg, env);
    assert env.complete[0] == Ran(Fatal);
  }
}
