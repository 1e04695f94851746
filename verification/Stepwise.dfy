// Fetch, install and start, one after the other, against one update; and resuming.

module Stepwise {
  import opened Options
  import opened Targets
  import opened Runner
  import opened Stages
  import opened Histories
  import opened GoodRuns

  function Opts(a: Action): CheckOpts {
    States(a)[0].opts
  }

  function AfterCheck(a: Action): seq<ActionState> {
    States(a)[1..]
  }

  /** Check adds no effects: an action is its other stages, run on the context that Check leaves. */
  lemma {:induction false} ActIs(a: Action, us: Updates, cfg: Config, env: Env)
    ensures var o := Check(Opts(a), FRESH, us, cfg, env);
            if o.err.Some? then Act(a, us, cfg, env) == o && o.fx == []
            else Act(a, us, cfg, env) == Run(AfterCheck(a), o.c.(num := o.c.num + 1), us, cfg, env)
  {
    hide Replay, Execute, Check, Run;
    NoSteps(us);
    ExecuteIs(FRESH, us, cfg, env);
    CheckIsQuiet(Opts(a), FRESH, us, cfg, env);
    RunByStages(States(a), FRESH, us, cfg, env);
    var o := Check(Opts(a), FRESH, us, cfg, env);
    var rest := Run(AfterCheck(a), o.c.(num := o.c.num + 1), us, cfg, env);
    assert [] + rest.fx == rest.fx;
  }

  /** Check resumes the update in progress whenever its target can be resolved and no other one is asked for. */
  lemma {:induction false} CheckResumes(opts: CheckOpts, us: Updates, cfg: Config, env: Env)
    requires Current(us).Some? && env.lookup && LoadTargets(opts, env).Some?
    requires opts.allowed == [] || us[|us| - 1].stage in opts.allowed
    requires TargetOf(us[|us| - 1], LoadTargets(opts, env).value, env.parse).Some?
    requires opts.toVersion == -1
    requires opts.requireLatest ==> Latest(LoadTargets(opts, env).value, cfg.versionLimit).id == us[|us| - 1].ref
    ensures var o := Check(opts, FRESH, us, cfg, env);
            && o.err.None? && o.c.runner == Some(|us| - 1) && o.c.to.id == us[|us| - 1].ref
            && o.c.mode.Resume?
            && o.c.to.apps
               == KeepNamed(TargetOf(us[|us| - 1], LoadTargets(opts, env).value, env.parse).value.apps, cfg.enabled)
  {
    hide Diff, FromTarget, LoadTargets, InSync, TargetOf, Latest, SyncTarget, CountFailed;
  }

  /** The target that a new, forced run without an attempt limit selects. */
  function Selected(v: int, ts: seq<Target>, cfg: Config): Target {
    if v == -1 then Latest(ts, cfg.versionLimit) else ByVersion(ts, v)
  }

  lemma {:induction false} CheckSelects(opts: CheckOpts, us: Updates, cfg: Config, env: Env)
    requires Current(us).None? && env.lookup && LoadTargets(opts, env).Some?
    requires opts.allowed == [] && opts.allowNew && opts.force && !opts.syncCurrent && opts.maxAttempts <= 0
    requires Selected(opts.toVersion, LoadTargets(opts, env).value, cfg).id != UNKNOWN.id
    ensures var o, t := Check(opts, FRESH, us, cfg, env), Selected(opts.toVersion, LoadTargets(opts, env).value, cfg);
            && o.err.None? && o.c.runner.None? && o.c.to == t.(apps := KeepNamed(t.apps, cfg.enabled))
  {
    hide Diff, FromTarget, LoadTargets, InSync, TargetOf, Latest, SyncTarget, CountFailed;
  }

  function InitEvents(id: nat, target: string): seq<Effect> {
    [Emit(id, target, InitStarted, None), Emit(id, target, InitCompleted, Some(true))]
  }

  function FetchEvents(id: nat, target: string): seq<Effect> {
    [Emit(id, target, DownloadStarted, None), Emit(id, target, DownloadCompleted, Some(true))]
  }

  function InstallEvents(id: nat, target: string): seq<Effect> {
    [Emit(id, target, InstallationStarted, None), Emit(id, target, InstallationApplied, None)]
  }

  function StartEvents(id: nat, target: string): seq<Effect> {
    [Emit(id, target, InstallationCompleted, Some(true))]
  }

  /** The last stage of the pipeline, from an update that has been installed. */
  lemma {:induction false} StartEventsFrom(id: nat, target: string, u: Update, apps: seq<string>)
    requires PastInstall(u.stage) && Consistent(u)
    ensures GoodAllEvents([StartState], id, target, u, apps) == StartEvents(id, target)
    ensures GoodAll([StartState], u, apps) == u.(stage := Completed, done := 5)
  {
    assert [StartState][1..] == [];
  }

  /** Stop and Install, and what follows them, from an update that has been fetched. */
  lemma {:induction false} InstallEventsFrom(
    rest: seq<ActionState>, id: nat, target: string, u: Update, apps: seq<string>)
    requires Legal(InstallOp, u.stage)
    ensures var u' := u.(stage := Installed, done := u.done + 1);
            && GoodAllEvents([StopState, InstallState] + rest, id, target, u, apps)
               == InstallEvents(id, target) + GoodAllEvents(rest, id, target, u', apps)
            && GoodAll([StopState, InstallState] + rest, u, apps) == GoodAll(rest, u', apps)
  {
    var l := [StopState, InstallState] + rest;
    assert l[1..] == [InstallState] + rest && l[1..][1..] == rest;
    var u' := u.(stage := Installed, done := u.done + 1);
    var tail := GoodAllEvents(rest, id, target, u', apps);
    assert [Emit(id, target, InstallationStarted, None)] + ([Emit(id, target, InstallationApplied, None)] + tail)
           == InstallEvents(id, target) + tail;
  }

  /** Init and Fetch, and what follows them, from an update just created. */
  lemma {:induction false} FetchEventsFrom(
    rest: seq<ActionState>, id: nat, target: string, u: Update, apps: seq<string>)
    requires u.stage.Created?
    ensures var u' := u.(stage := Fetched, done := u.done + 2, uris := apps);
            && GoodAllEvents([InitState, FetchState] + rest, id, target, u, apps)
               == InitEvents(id, target) + FetchEvents(id, target) + GoodAllEvents(rest, id, target, u', apps)
            && GoodAll([InitState, FetchState] + rest, u, apps) == GoodAll(rest, u', apps)
  {
    var l := [InitState, FetchState] + rest;
    assert l[1..] == [FetchState] + rest && l[1..][1..] == rest;
    var tail := GoodAllEvents(rest, id, target, u.(stage := Fetched, done := u.done + 2, uris := apps), apps);
    assert InitEvents(id, target) + (FetchEvents(id, target) + tail)
      == InitEvents(id, target) + FetchEvents(id, target) + tail;
  }

  /** Stages already behind the update send nothing and change nothing. */
  lemma {:induction false} SkipsDone(rest: seq<ActionState>, id: nat, target: string, u: Update, apps: seq<string>)
    requires Legal(InstallOp, u.stage) || PastInstall(u.stage)
    ensures GoodAllEvents([InitState, FetchState] + rest, id, target, u, apps)
            == GoodAllEvents(rest, id, target, u, apps)
    ensures GoodAll([InitState, FetchState] + rest, u, apps) == GoodAll(rest, u, apps)
  {
    var l := [InitState, FetchState] + rest;
    assert l[1..] == [FetchState] + rest && l[1..][1..] == rest;
    assert [] + ([] + GoodAllEvents(rest, id, target, u, apps)) == GoodAllEvents(rest, id, target, u, apps);
  }

  lemma {:induction false} SkipsInstall(id: nat, target: string, u: Update, apps: seq<string>)
    requires PastInstall(u.stage)
    ensures GoodAllEvents([StopState, InstallState] + [StartState], id, target, u, apps)
            == GoodAllEvents([StartState], id, target, u, apps)
    ensures GoodAll([StopState, InstallState] + [StartState], u, apps) == GoodAll([StartState], u, apps)
  {
    var l := [StopState, InstallState] + [StartState];
    assert l[1..] == [InstallState] + [StartState] && l[1..][1..] == [StartState];
    assert [] + ([] + GoodAllEvents([StartState], id, target, u, apps))
      == GoodAllEvents([StartState], id, target, u, apps);
  }

  // Whole actions.

  lemma {:induction false} StagesAre(v: int, o: UpdateOpts)
    ensures AfterCheck(FetchAction(v)) == AFTER_CHECK[..2] == [InitState, FetchState] + []
    ensures AfterCheck(InstallAction) == AFTER_CHECK[..4] == [InitState, FetchState] + ([StopState, InstallState] + [])
    ensures AfterCheck(StartAction) == AFTER_CHECK
            == [InitState, FetchState] + ([StopState, InstallState] + [StartState])
    ensures AfterCheck(UpdateAction(v, o)) == AFTER_CHECK
  {
  }

  /** An update run can go on with the update in progress: its targets load, the target of that update can be resolved,
      and no later one is insisted on. */
  predicate CanResume(us: Updates, cfg: Config, env: Env, opts: UpdateOpts) {
    && Current(us).Some? && env.lookup && env.repo && !env.cached.LoadFailed? && env.reloaded.Loaded?
    && TargetOf(us[|us| - 1], env.reloaded.targets, env.parse).Some?
    && (opts.requireLatest ==> Latest(env.reloaded.targets, cfg.versionLimit).id == us[|us| - 1].ref)
  }

  /** The context in which the stages after Check go on. */
  function ResumedContext(us: Updates, cfg: Config, env: Env, opts: UpdateOpts): Ctx {
    var c := Check(Opts(UpdateAction(-1, opts)), FRESH, us, cfg, env).c;
    c.(num := c.num + 1)
  }

  lemma {:induction false} ResumeRuns(us: Updates, cfg: Config, env: Env, opts: UpdateOpts)
    requires Inv(us) && CanResume(us, cfg, env, opts)
    ensures var c := ResumedContext(us, cfg, env, opts);
            && Drives(c, us, 0)
            && Act(UpdateAction(-1, opts), us, cfg, env) == Run(AFTER_CHECK, c, us, cfg, env)
            && (us[|us| - 1].stage.Created? ==> Uris(c.to.apps) == us[|us| - 1].uris == [])
  {
    hide Act, AfterCheck, Check, Run, TargetOf, Latest, KeepNamed;
    var a := UpdateAction(-1, opts);
    StagesAre(-1, opts);
    ActIs(a, us, cfg, env);
    CheckResumes(Opts(a), us, cfg, env);
    if us[|us| - 1].stage.Created? {
      assert Consistent(us[|us| - 1]);
      NoUrisNoApps(us[|us| - 1], env.reloaded.targets, env.parse, cfg);
    }
  }

  /** One update run takes any update in progress whose target can be resolved to Completed, whatever its stage,
      unless the latest version is insisted on and it is another one. The app list is the one recorded before. */
  lemma {:induction false} ResumeCompletes(us: Updates, cfg: Config, env: Env, opts: UpdateOpts)
    requires Inv(us) && Good(cfg, env) && CanResume(us, cfg, env, opts)
    ensures var o, last := Act(UpdateAction(-1, opts), us, cfg, env), |us| - 1;
            && o.err.None?
            && Replay(us, o.fx) == us[last := Update(us[last].ref, us[last].uris, Completed, 5)]
  {
    hide Act, Replay, Run, CanResume, ResumedContext, GoodAll, GoodAllEvents, GoodOrder, Emits, Good, GoodUntilStart;
    ResumeRuns(us, cfg, env, opts);
    var c := ResumedContext(us, cfg, env, opts);
    ListsAreGood();
    assert Consistent(us[|us| - 1]);
    GoodIsGood(cfg, env);
    GoodStates(AFTER_CHECK, 1, c, us, cfg, env);
    CompletesFrom(us[|us| - 1], Uris(c.to.apps));
  }

  lemma {:induction false} GoodIsGood(cfg: Config, env: Env)
    requires Good(cfg, env)
    ensures GoodUntilStart(cfg, env)
  {
  }

  /** An update that has recorded no app list resolves to a target without apps. */
  lemma {:induction false} NoUrisNoApps(u: Update, ts: seq<Target>, parse: map<string, App>, cfg: Config)
    requires u.uris == [] && TargetOf(u, ts, parse).Some?
    ensures KeepNamed(TargetOf(u, ts, parse).value.apps, cfg.enabled) == []
  {
  }

  /** One forced update from nothing in progress. */
  lemma {:induction false} OneShot(us: Updates, v: int, requireLatest: bool, cfg: Config, env: Env, ts: seq<Target>)
    requires Inv(us) && Current(us).None? && Good(cfg, env) && env.reloaded == Loaded(ts)
    requires Selected(v, ts, cfg).id != UNKNOWN.id
    ensures var o := Act(UpdateAction(v, UpdateOpts(true, false, 0, requireLatest)), us, cfg, env);
            var t := Selected(v, ts, cfg);
            && o.err.None?
            && Replay(us, o.fx) == us + [Update(t.id, Uris(KeepNamed(t.apps, cfg.enabled)), Completed, 5)]
            && Emits(o.fx) == InitEvents(|us|, t.id) + FetchEvents(|us|, t.id) + InstallEvents(|us|, t.id)
               + StartEvents(|us|, t.id)
  {
    hide Act, AfterCheck, Inv;
    hide Replay, Check, Run, Selected, Emits, NoSpace, GoodAll, GoodAllEvents;
    var a := UpdateAction(v, UpdateOpts(true, false, 0, requireLatest));
    StagesAre(v, UpdateOpts(true, false, 0, requireLatest));
    ActIs(a, us, cfg, env);
    CheckSelects(Opts(a), us, cfg, env);
    var c0 := Check(Opts(a), FRESH, us, cfg, env).c;
    var c, t := c0.(num := c0.num + 1), Selected(v, ts, cfg);
    ListsAreGood();
    RunCreates(AFTER_CHECK, c, us, cfg, env);
    var us0, u0, apps := us + [Update(t.id, [], Created, 0)], Update(t.id, [], Created, 0), Uris(c.to.apps);
    GoodStates(AFTER_CHECK, 1, c.(runner := Some(|us|)), us0, cfg, env);
    CompletesFrom(u0, apps);
    var u2 := Update(t.id, apps, Fetched, 2);
    FetchEventsFrom([StopState, InstallState] + [StartState], |us|, t.id, u0, apps);
    InstallEventsFrom([StartState], |us|, t.id, u2, apps);
    StartEventsFrom(|us|, t.id, Update(t.id, apps, Installed, 3), apps);
    var i, f := InitEvents(|us|, t.id), FetchEvents(|us|, t.id);
    var n, s := InstallEvents(|us|, t.id), StartEvents(|us|, t.id);
    assert i + f + (n + s) == i + f + n + s;
    assert us0[|us| := Update(t.id, apps, Completed, 5)] == us + [Update(t.id, apps, Completed, 5)];
  }

  lemma {:induction false} FetchOnly(us: Updates, v: int, cfg: Config, env: Env, ts: seq<Target>)
    requires Inv(us) && Current(us).None? && Good(cfg, env) && env.cached == Loaded(ts)
    requires Selected(v, ts, cfg).id != UNKNOWN.id
    ensures var o, t := Act(FetchAction(v), us, cfg, env), Selected(v, ts, cfg);
            && o.err.None?
            && Replay(us, o.fx) == us + [Update(t.id, Uris(KeepNamed(t.apps, cfg.enabled)), Fetched, 2)]
            && Emits(o.fx) == InitEvents(|us|, t.id) + FetchEvents(|us|, t.id)
  {
    hide Act, AfterCheck, Inv;
    hide Replay, Check, Run, Selected, Emits, NoSpace, GoodAll, GoodAllEvents;
    var a := FetchAction(v);
    StagesAre(v, UpdateOpts(false, false, 0, false));
    ActIs(a, us, cfg, env);
    CheckSelects(Opts(a), us, cfg, env);
    var c0 := Check(Opts(a), FRESH, us, cfg, env).c;
    var c, t := c0.(num := c0.num + 1), Selected(v, ts, cfg);
    var l: seq<ActionState> := [InitState, FetchState] + [];
    ListsAreGood();
    RunCreates(l, c, us, cfg, env);
    var us0, u0, apps := us + [Update(t.id, [], Created, 0)], Update(t.id, [], Created, 0), Uris(c.to.apps);
    GoodStates(l, 1, c.(runner := Some(|us|)), us0, cfg, env);
    FetchEventsFrom([], |us|, t.id, u0, apps);
    GoodNone(|us|, t.id, Update(t.id, apps, Fetched, 2), apps);
    var i, f := InitEvents(|us|, t.id), FetchEvents(|us|, t.id);
    assert i + f + [] == i + f;
    assert us0[|us| := Update(t.id, apps, Fetched, 2)] == us + [Update(t.id, apps, Fetched, 2)];
  }

  lemma {:induction false} GoodNone(id: nat, target: string, u: Update, apps: seq<string>)
    ensures GoodAll([], u, apps) == u && GoodAllEvents([], id, target, u, apps) == []
  {
  }

  /** Fetch, install and start go on with the update in progress, if its stage is one of theirs and its target can be
      resolved from the targets loaded before. */
  lemma {:induction false} ResumesFromCache(a: Action, us: Updates, cfg: Config, env: Env, ts: seq<Target>)
    requires Inv(us) && Current(us).Some? && GoodUntilStart(cfg, env) && env.cached == Loaded(ts)
    requires TargetOf(us[|us| - 1], ts, env.parse).Some?
    requires match a
      case UpdateAction(_, _) => false
      case FetchAction(v) => v == -1
      case InstallAction => us[|us| - 1].stage in {Fetched, Installing}
      case StartAction => us[|us| - 1].stage in {Installed, Starting, Started, Completing}
    ensures var check := Check(Opts(a), FRESH, us, cfg, env);
            var c := check.c.(num := check.c.num + 1);
            && Drives(c, us, 0) && Consistent(us[|us| - 1])
            && Act(a, us, cfg, env) == Run(AfterCheck(a), c, us, cfg, env)
            && (us[|us| - 1].stage.Created? ==> Uris(c.to.apps) == us[|us| - 1].uris)
  {
    hide Act, AfterCheck, Check, Run, NoSpace, TargetOf, KeepNamed, Latest;
    ActIs(a, us, cfg, env);
    CheckResumes(Opts(a), us, cfg, env);
    assert Consistent(us[|us| - 1]);
    if us[|us| - 1].stage.Created? { NoUrisNoApps(us[|us| - 1], ts, env.parse, cfg); }
  }

  /** An install run takes an update from either stage in which it is admitted to installed. */
  lemma {:induction false} InstallOnly(us: Updates, cfg: Config, env: Env, ts: seq<Target>)
    requires Inv(us) && us != [] && us[|us| - 1].stage in {Fetched, Installing}
    requires Good(cfg, env) && env.cached == Loaded(ts)
    requires TargetOf(us[|us| - 1], ts, env.parse).Some?
    ensures var o, last := Act(InstallAction, us, cfg, env), |us| - 1;
            && o.err.None?
            && Replay(us, o.fx) == us[last := us[last].(stage := Installed, done := us[last].done + 1)]
            && Emits(o.fx) == InstallEvents(last, us[last].ref)
  {
    hide Act, AfterCheck, Inv, Replay, Check, Run, Emits, NoSpace, GoodAll, GoodAllEvents, GoodOrder, TargetOf;
    ResumesFromCache(InstallAction, us, cfg, env, ts);
    var check, u, last := Check(Opts(InstallAction), FRESH, us, cfg, env), us[|us| - 1], |us| - 1;
    var c := check.c.(num := check.c.num + 1);
    StagesAre(0, UpdateOpts(false, false, 0, false));
    var l := [InitState, FetchState] + ([StopState, InstallState] + []);
    ListsAreGood();
    GoodStates(l, 1, c, us, cfg, env);
    SkipsDone([StopState, InstallState] + [], last, u.ref, u, Uris(c.to.apps));
    InstallEventsFrom([], last, u.ref, u, Uris(c.to.apps));
    GoodNone(last, u.ref, u.(stage := Installed, done := u.done + 1), Uris(c.to.apps));
    assert InstallEvents(last, u.ref) + [] == InstallEvents(last, u.ref);
  }

  /** A start run takes an update from each of the four stages in which it is admitted to completed. */
  lemma {:induction false} StartOnly(us: Updates, cfg: Config, env: Env, ts: seq<Target>)
    requires Inv(us) && us != [] && us[|us| - 1].stage in {Installed, Starting, Started, Completing}
    requires Good(cfg, env) && env.cached == Loaded(ts)
    requires TargetOf(us[|us| - 1], ts, env.parse).Some?
    ensures var o, last := Act(StartAction, us, cfg, env), |us| - 1;
            && o.err.None?
            && Replay(us, o.fx) == us[last := us[last].(stage := Completed, done := 5)]
            && Emits(o.fx) == StartEvents(last, us[last].ref)
  {
    hide Act, AfterCheck, Inv, Replay, Check, Run, Emits, NoSpace, GoodAll, GoodAllEvents, GoodOrder, TargetOf;
    ResumesFromCache(StartAction, us, cfg, env, ts);
    var check, u, last := Check(Opts(StartAction), FRESH, us, cfg, env), us[|us| - 1], |us| - 1;
    var c := check.c.(num := check.c.num + 1);
    StagesAre(0, UpdateOpts(false, false, 0, false));
    var l := [InitState, FetchState] + ([StopState, InstallState] + [StartState]);
    ListsAreGood();
    GoodStates(l, 1, c, us, cfg, env);
    SkipsDone([StopState, InstallState] + [StartState], last, u.ref, u, Uris(c.to.apps));
    SkipsInstall(last, u.ref, u, Uris(c.to.apps));
    StartEventsFrom(last, u.ref, u, Uris(c.to.apps));
  }

  /** A fetch run takes an update in progress to fetched, and leaves one alone that has got so far. */
  lemma {:induction false} FetchResumes(us: Updates, cfg: Config, env: Env, ts: seq<Target>)
    requires Inv(us) && Current(us).Some? && Good(cfg, env) && env.cached == Loaded(ts)
    requires TargetOf(us[|us| - 1], ts, env.parse).Some?
    ensures var o, last := Act(FetchAction(-1), us, cfg, env), |us| - 1;
            && o.err.None?
            && Replay(us, o.fx)
               == (if us[last].done >= 2 then us else us[last := us[last].(stage := Fetched, done := 2)])
            && (us[last].done >= 2 ==> Emits(o.fx) == [])
  {
    hide Act, AfterCheck, Inv, Replay, Check, Run, Emits, NoSpace, GoodAll, GoodAllEvents, GoodOrder, TargetOf;
    ResumesFromCache(FetchAction(-1), us, cfg, env, ts);
    var check, u, last := Check(Opts(FetchAction(-1)), FRESH, us, cfg, env), us[|us| - 1], |us| - 1;
    var c := check.c.(num := check.c.num + 1);
    StagesAre(-1, UpdateOpts(false, false, 0, false));
    ListsAreGood();
    GoodStates(FETCH_STAGES, 1, c, us, cfg, env);
    FetchedFrom(last, u.ref, u, Uris(c.to.apps));
    assert us[last := u] == us;
  }

  const FETCH_STAGES: seq<ActionState> := [InitState, FetchState]

  lemma {:induction false} FetchedFrom(id: nat, target: string, u: Update, apps: seq<string>)
    requires Consistent(u) && !Terminal(u.stage) && (u.stage.Created? ==> apps == u.uris)
    ensures GoodAll(FETCH_STAGES, u, apps) == if u.done >= 2 then u else u.(stage := Fetched, done := 2)
    ensures u.done >= 2 ==> GoodAllEvents(FETCH_STAGES, id, target, u, apps) == []
  {
    var l, u1 := FETCH_STAGES, GoodNext(InitState, u, apps);
    var u2 := GoodNext(FetchState, u1, apps);
    assert l[1..] == [FetchState] && l[1..][1..] == [];
    assert GoodAll([], u2, apps) == u2 && GoodAllEvents([], id, target, u2, apps) == [];
    assert GoodAll(l[1..], u1, apps) == u2;
    assert GoodAllEvents(l[1..], id, target, u1, apps) == GoodEvents(FetchState, id, target, u1.stage) + [];
    assert GoodAllEvents(l, id, target, u, apps)
      == GoodEvents(InitState, id, target, u.stage) + GoodAllEvents(l[1..], id, target, u1, apps);
  }

  /** From nothing in progress, with the same targets loaded and everything succeeding, fetch then install then
      start leaves the same updates and sends the same events as one forced update. */
  lemma {:induction false} StepwiseIsOneShot(us: Updates, v: int, requireLatest: bool, cfg: Config, ts: seq<Target>,
                                             fetch: Env, install: Env, start: Env, update: Env)
    requires Inv(us) && Current(us).None? && Selected(v, ts, cfg).id != UNKNOWN.id
    requires Good(cfg, fetch) && Good(cfg, install) && Good(cfg, start) && Good(cfg, update)
    requires fetch.cached == install.cached == start.cached == update.reloaded == Loaded(ts)
    ensures var f := Act(FetchAction(v), us, cfg, fetch);
            var us1 := Replay(us, f.fx);
            var i := Act(InstallAction, us1, cfg, install);
            var us2 := Replay(us1, i.fx);
            var s := Act(StartAction, us2, cfg, start);
            var u := Act(UpdateAction(v, UpdateOpts(true, false, 0, requireLatest)), us, cfg, update);
            && f.err.None? && i.err.None? && s.err.None? && u.err.None?
            && Replay(us2, s.fx) == Replay(us, u.fx)
            && Emits(f.fx + i.fx + s.fx) == Emits(u.fx)
  {
    hide Act, Replay, Emits, NoSpace, Selected, TargetOf;
    var t := Selected(v, ts, cfg);
    SelectedIsListed(v, ts, cfg);
    OneShot(us, v, requireLatest, cfg, update, ts);
    FetchOnly(us, v, cfg, fetch, ts);
    var f := Act(FetchAction(v), us, cfg, fetch);
    var us1 := Replay(us, f.fx);
    var i := Act(InstallAction, us1, cfg, install);
    InstallOnly(us1, cfg, install, ts);
    var us2 := Replay(us1, i.fx);
    var s := Act(StartAction, us2, cfg, start);
    StartOnly(us2, cfg, start, ts);
    EmitsConcat(f.fx + i.fx, s.fx);
    EmitsConcat(f.fx, i.fx);
    var u := Act(UpdateAction(v, UpdateOpts(true, false, 0, requireLatest)), us, cfg, update);
    assert Replay(us2, s.fx) == Replay(us, u.fx);
  }

  lemma {:induction false} SelectedIsListed(v: int, ts: seq<Target>, cfg: Config)
    requires Selected(v, ts, cfg).id != UNKNOWN.id
    ensures var t := Selected(v, ts, cfg);
            forall u: Update, parse {:trigger TargetOf(u, ts, parse)} :: u.ref == t.id ==> TargetOf(u, ts, parse).Some?
  {
    LatestIsHighest(ts, cfg.versionLimit);
  }
}
