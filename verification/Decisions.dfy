// What Check decides, when Fetch downloads, and which target and apps an update records.

module Decisions {
  import opened Options
  import opened Targets
  import opened Runner
  import opened Stages
  import opened Histories
  import opened GoodRuns
  import opened Stepwise
  import opened Safety
  import Grammar
  import FreeSpace

  // Nothing to do.

  /** Check answers that there is no update exactly for a new, unforced sync whose app lists agree and whose status
      is readable and shows every app of the target fetched, installed and running. */
  lemma {:induction false} NoUpdateIff(opts: CheckOpts, c: Ctx, us: Updates, cfg: Config, env: Env)
    ensures var o := Check(opts, c, us, cfg, env);
            o.err.None? || o.err == Some(ErrCheckNoUpdate) ==>
              (o.err == Some(ErrCheckNoUpdate) <==>
                && !opts.force && o.c.mode.NewUpdate? && o.c.to.id == o.c.from.id
                && o.c.diff.add == [] && o.c.diff.remove == [] && o.c.diff.update == []
                && env.status.Some?
                && forall a :: a in o.c.to.apps ==>
                     a.uri in env.status.value
                     && var st := env.status.value[a.uri]; st.fetched && st.installed && st.running)
  {
    hide Diff, FromTarget, LoadTargets, Select, InSync;
    var o := Check(opts, c, us, cfg, env);
    if o.err.None? || o.err == Some(ErrCheckNoUpdate) {
      InSyncMeans(o.c, env.status);
      CheckDecides(opts, c, us, cfg, env);
    }
  }

  lemma {:induction false} InSyncMeans(c: Ctx, st: Option<Status>)
    ensures InSync(c, st) <==> c.diff.add == [] && c.diff.remove == [] && c.diff.update == [] && st.Some?
                               && forall a :: a in c.to.apps ==> Healthy(st.value, a.uri)
  {
    if st.Some? {
      var uris := Uris(c.to.apps);
      if forall a :: a in c.to.apps ==> Healthy(st.value, a.uri) {
        forall uri | uri in uris ensures Healthy(st.value, uri) {
          var i :| 0 <= i < |uris| && uris[i] == uri;
          assert c.to.apps[i] in c.to.apps;
        }
      }
      if forall uri :: uri in uris ==> Healthy(st.value, uri) {
        forall a | a in c.to.apps ensures Healthy(st.value, a.uri) {
          var i :| 0 <= i < |c.to.apps| && c.to.apps[i] == a;
          assert uris[i] in uris;
        }
      }
    }
  }

  lemma {:induction false} CheckDecides(opts: CheckOpts, c: Ctx, us: Updates, cfg: Config, env: Env)
    requires var o := Check(opts, c, us, cfg, env); o.err.None? || o.err == Some(ErrCheckNoUpdate)
    ensures var o := Check(opts, c, us, cfg, env);
            && (o.err == Some(ErrCheckNoUpdate) <==> !opts.force && NewSync(o.c) && InSync(o.c, env.status))
            && (o.c.kind.SyncUpdate? <==> o.c.to.id == o.c.from.id)
            && (o.c.mode.Resume? <==> Current(us).Some?)
            && o.c.runner == Current(us)
            && o.c.forced == opts.force
            && o.c.diff == Diff(o.c.from.apps, o.c.to.apps)
            && o.c.status == if !opts.force && NewSync(o.c) && ReadsStatus(o.c) then env.status else c.status
  {
    hide Diff, FromTarget, LoadTargets;
  }

  /** No difference is found exactly if the new list has distinct names and holds the apps that count in the old
      one, name and URI. */
  lemma {:induction false} ListsAgreeIff(from: seq<App>, to: seq<App>)
    ensures !ListChanged(Diff(from, to)) <==> DistinctNames(to) && forall a :: a in to <==> LastOfName(from, a)
  {
    DiffSplits(from, to);
    if !ListChanged(Diff(from, to)) { AgreeingLists(from, to); }
    if DistinctNames(to) && forall a :: a in to <==> LastOfName(from, a) { DifferentLists(from, to); }
  }

  lemma {:induction false} AgreeingLists(from: seq<App>, to: seq<App>)
    requires !ListChanged(Diff(from, to))
    ensures DistinctNames(to) && forall a :: a in to <==> LastOfName(from, a)
  {
    var d := Diff(from, to);
    DiffSplits(from, to);
    hide Diff;
    forall a | a in to ensures !Repeats(to, a) && Named(from, a.name) {
      assert a !in d.add;
    }
    NoRepeatsIsDistinct(to);
    forall a ensures a in to <==> LastOfName(from, a) {
      DistinctCount(to, a);
      assert a !in d.remove && a !in d.updateTo;
      if LastOfName(from, a) {
        var i :| 0 <= i < |to| && to[i].name == a.name;
        DistinctCount(to, to[i]);
        assert to[i] in to && to[i] !in d.updateTo;
        MapHoldsLast(from, a);
        MapHoldsLast(from, to[i]);
      }
    }
  }

  lemma {:induction false} DifferentLists(from: seq<App>, to: seq<App>)
    requires DistinctNames(to) && forall a :: a in to <==> LastOfName(from, a)
    ensures !ListChanged(Diff(from, to))
  {
    var d := Diff(from, to);
    DiffSplits(from, to);
    hide Diff;
    forall a ensures a !in d.add && a !in d.remove && a !in d.updateTo {
      DistinctCount(to, a);
      RepeatsIsIn(to, a);
      RepeatsIsIn(from, a);
    }
    HasMember(d.add);
    HasMember(d.remove);
    HasMember(d.updateTo);
  }

  lemma {:induction false} HasMember(apps: seq<App>)
    ensures apps != [] ==> exists a :: a in apps
  {
    if apps != [] { assert apps[0] in apps; }
  }

  // Install and start alone.

  /** Why Check turns an action away that is not allowed now. */
  function TurnedAway(us: Updates, env: Env): Stages.Error {
    if !env.lookup then ErrUpdateLookup
    else if Current(us).None? then ErrNoUpdateInProgress
    else ErrInvalidActionForState
  }

  /** Install and start do nothing at all unless the update in progress is in one of their own stages: neither
      creates an update, and start never downloads or installs. */
  lemma {:induction false} InstallAndStartAreGuarded(us: Updates, cfg: Config, env: Env)
    ensures var ready := Current(us).Some? && us[|us| - 1].stage in {Fetched, Installing};
            !ready || !env.lookup ==>
              Act(InstallAction, us, cfg, env).fx == []
              && Act(InstallAction, us, cfg, env).err == Some(TurnedAway(us, env))
    ensures var ready := Current(us).Some? && PastInstall(us[|us| - 1].stage);
            !ready || !env.lookup ==>
              Act(StartAction, us, cfg, env).fx == [] && Act(StartAction, us, cfg, env).err == Some(TurnedAway(us, env))
  {
    hide Act, Run, LoadTargets, FromTarget, Select, Decide, Prepared, AfterCheck;
    ActIs(InstallAction, us, cfg, env);
    ActIs(StartAction, us, cfg, env);
  }

  // Fetch.

  /** The runner is asked to fetch exactly if the download has not finished and the required total, as it comes out
      of 64-bit arithmetic, fits the available space, or the space could not be read. For recorded blobs that need less
      than 2^64 bytes this is the true total. */
  lemma {:induction false} FetchesIffItFits(c: Ctx, us: Updates, cfg: Config, env: Env)
    ensures var fx, total := Fetch(c, us, cfg, env).fx, FreeSpace.TotalNeed(env.blobs, cfg.block);
            && ((exists i :: 0 <= i < |fx| && fx[i].Call?) <==>
                  Legal(FetchOp, StageAt(us, Id(c)))
                  && (env.usageBefore.None? || FreeSpace.Uint64(total) <= env.usageBefore.value))
            && (FreeSpace.AllRecorded(env.blobs, cfg.block) && total < FreeSpace.TWO64
                ==> FreeSpace.Uint64(total) == total)
  {
    var fx := Fetch(c, us, cfg, env).fx;
    if FreeSpace.AllRecorded(env.blobs, cfg.block) {
      FreeSpace.NeverNegative(env.blobs, cfg.block);
      FreeSpace.ConversionExact(env.blobs, cfg.block);
    }
    hide FreeSpace.TotalNeed, FreeSpace.AllRecorded, FreeSpace.Uint64;
    if Legal(FetchOp, StageAt(us, Id(c))) && !NoSpace(cfg, env) { assert fx[1].Call?; }
  }

  // Creation.

  /** Stages after Check, on a driven update, create nothing. */
  lemma {:induction false} RunCreatesNothing(states: seq<ActionState>, c: Ctx, us: Updates, cfg: Config, env: Env)
    requires c.runner.Some? && forall i :: 0 <= i < |states| ==> !states[i].CheckState?
    ensures forall i :: 0 <= i < |Run(states, c, us, cfg, env).fx| ==> !Run(states, c, us, cfg, env).fx[i].New?
    decreases |states|
  {
    hide Run, Execute, Replay;
    if states == [] {
      RunNone(c, us, cfg, env);
    } else {
      RunByStages(states, c, us, cfg, env);
      Grammar.OnlyDriven(states[0], c, us, cfg, env);
      KeepsRunner(states[0], c, us, cfg, env);
      var o := Execute(states[0], c, us, cfg, env);
      if o.err.None? { RunCreatesNothing(states[1..], o.c.(num := o.c.num + 1), Replay(us, o.fx), cfg, env); }
    }
  }

  lemma {:induction false} KeepsRunner(s: ActionState, c: Ctx, us: Updates, cfg: Config, env: Env)
    requires c.runner.Some? && !s.CheckState?
    ensures Execute(s, c, us, cfg, env).c.runner == c.runner
  {
    hide Replay, Complete, OpEffects;
  }

  /** A run creates at most one update, first of all, when none is in progress, for the target that Check selected. */
  lemma {:induction false} CreatesFirst(a: Action, us: Updates, cfg: Config, env: Env)
    ensures var fx, check := Act(a, us, cfg, env).fx, Check(Opts(a), FRESH, us, cfg, env);
            && (forall i :: 0 < i < |fx| ==> !fx[i].New?)
            && (fx != [] && fx[0].New? ==> check.err.None? && Current(us).None? && fx[0].ref == check.c.to.id)
            && (check.err.None? && Current(us).None? ==> fx != [] && fx[0] == New(check.c.to.id))
  {
    hide Act, Run, Check, Replay, Execute, AfterCheck;
    ActIs(a, us, cfg, env);
    var check := Check(Opts(a), FRESH, us, cfg, env);
    if check.err.None? {
      CheckDecides(Opts(a), FRESH, us, cfg, env);
      var c, states := check.c.(num := check.c.num + 1), AfterCheck(a);
      StartsWithInit(a);
      if c.runner.Some? {
        RunCreatesNothing(states, c, us, cfg, env);
      } else {
        CreatedRunIs(states, c, us, cfg, env);
        RunCreatesNothing(states, c.(runner := Some(|us|)), us + [Update(c.to.id, [], Created, 0)], cfg, env);
      }
    }
  }

  lemma {:induction false} StartsWithInit(a: Action)
    ensures var l := AfterCheck(a); l != [] && l[0].InitState? && forall i :: 0 <= i < |l| ==> !l[i].CheckState?
  {
  }

  /** A run without Fetch or Stop before Install calls the runner too early on an update whose download has not
      finished. */
  lemma {:induction false} UnguardedInstallIsIllegal(opts: CheckOpts, us: Updates, cfg: Config, env: Env)
    requires Inv(us) && us != [] && us[|us| - 1].stage in {Initialized, Fetching}
    requires Check(opts, FRESH, us, cfg, env).err.None?
    ensures !StepsOk(us, Run([CheckState(opts), InitState, InstallState], FRESH, us, cfg, env).fx)
  {
    hide Replay, StepsOk, Check, Run, Execute, Init, Install, Inv, Checked, Drives, Current;
    CheckIsQuiet(opts, FRESH, us, cfg, env);
    DrivesChecked(opts, us, cfg, env);
    var c0 := Check(opts, FRESH, us, cfg, env).c;
    var c1, c2 := c0.(num := c0.num + 1), c0.(num := c0.num + 2);
    SkipsInit(c1, us, env);
    ExecuteIs(FRESH, us, cfg, env);
    ExecuteIs(c1, us, cfg, env);
    ExecuteIs(c2, us, cfg, env);
    QuietFirst(CheckState(opts), [InitState, InstallState], FRESH, us, cfg, env);
    QuietFirst(InitState, [InstallState], c1, us, cfg, env);
    assert [CheckState(opts)] + [InitState, InstallState] == [CheckState(opts), InitState, InstallState];
    assert [InitState] + [InstallState] == [InitState, InstallState];
    RunOfOne(InstallState, c2, us, cfg, env);
    InstallIsSafeIff(c2, us, env);
  }

  lemma {:induction false} DrivesChecked(opts: CheckOpts, us: Updates, cfg: Config, env: Env)
    requires Inv(us) && us != [] && us[|us| - 1].stage in {Initialized, Fetching}
    requires Check(opts, FRESH, us, cfg, env).err.None?
    ensures forall num :: Drives(Check(opts, FRESH, us, cfg, env).c.(num := num), us, 1)
    ensures us[|us| - 1].done == 1
  {
    hide Check;
    CheckLeaves(opts, FRESH, us, cfg, env);
    assert Consistent(us[|us| - 1]);
  }

  /** A first stage that has no effects and no error can be left out. */
  lemma {:induction false} QuietFirst(
    s: ActionState, rest: seq<ActionState>, c: Ctx, us: Updates, cfg: Config, env: Env)
    requires Execute(s, c, us, cfg, env).fx == [] && Execute(s, c, us, cfg, env).err.None?
    ensures var c' := Execute(s, c, us, cfg, env).c;
            Run([s] + rest, c, us, cfg, env) == Run(rest, c'.(num := c'.num + 1), us, cfg, env)
  {
    hide Run, Execute, Replay;
    NoSteps(us);
    RunByStages([s] + rest, c, us, cfg, env);
    assert ([s] + rest)[1..] == rest;
    var c' := Execute(s, c, us, cfg, env).c;
    var o := Run(rest, c'.(num := c'.num + 1), us, cfg, env);
    assert [] + o.fx == o.fx;
  }

  lemma {:induction false} RunOfOne(s: ActionState, c: Ctx, us: Updates, cfg: Config, env: Env)
    ensures Run([s], c, us, cfg, env).fx == Execute(s, c, us, cfg, env).fx
  {
    hide Run, Execute, Replay;
    RunByStages([s], c, us, cfg, env);
    var o := Execute(s, c, us, cfg, env);
    RunNone(o.c.(num := o.c.num + 1), Replay(us, o.fx), cfg, env);
    assert [s][1..] == [] && o.fx + [] == o.fx;
  }

  lemma {:induction false} UnguardedInstallFails(cfg: Config)
    ensures var us := [Update("lmp-1", [], Initialized, 1)];
            var opts := CheckOpts(false, false, false, [], -1, false, 0, false);
            var run := Run([CheckState(opts), InitState, InstallState], FRESH, us, cfg, Calm([Target("lmp-1", 1, [])]));
            Inv(us) && !StepsOk(us, run.fx)
  {
    hide StepsOk, Check, Run;
    var us, opts := [Update("lmp-1", [], Initialized, 1)], CheckOpts(false, false, false, [], -1, false, 0, false);
    var env := Calm([Target("lmp-1", 1, [])]);
    CheckResumes(opts, us, cfg, env);
    UnguardedInstallIsIllegal(opts, us, cfg, env);
  }

  lemma {:induction false} SkipsInit(c: Ctx, us: Updates, env: Env)
    requires Drives(c, us, 1) && us[|us| - 1].stage in {Initialized, Fetching}
    ensures Init(c, us, env).fx == [] && Init(c, us, env).err.None? && Init(c, us, env).c == c
  {
    hide Replay;
    NoSteps(us);
  }

  // Which target.

  /** A version asked for is the version that runs: a run that gets past Check has selected it, and a run that
      resumes has selected the target of the update in progress. */
  lemma {:induction false} RequestedVersionKept(opts: CheckOpts, us: Updates, cfg: Config, env: Env)
    requires Inv(us)
    ensures var o := Check(opts, FRESH, us, cfg, env);
            o.err.None? ==>
              && (opts.toVersion != -1 ==> o.c.to.version == opts.toVersion)
              && (Current(us).Some? ==> o.c.to.id == us[|us| - 1].ref)
  {
    hide Diff, FromTarget, LoadTargets, InSync, TargetOf, Latest, SyncTarget, CountFailed;
  }

  /** A target whose ID ends in its version is rebuilt from the record of an update to it, once it has left the list. */
  lemma {:induction false} TargetIsRebuilt(
    u: Update, t: Target, prefix: string, ts: seq<Target>, parse: map<string, App>)
    requires 0 <= t.version <= MAX_INT64 && t.id == prefix + "-" + Numeral(t.version)
    requires forall a :: a in t.apps ==> a.uri in parse && parse[a.uri] == a
    requires u.ref == t.id && u.uris == Uris(t.apps) && forall x :: x in ts ==> x.id != t.id
    ensures TargetOf(u, ts, parse) == Some(t)
  {
    VersionIsReadBack(prefix, t.version);
    AppsAreReadBack(t.apps, parse);
  }

  // Which apps.

  /** A run that creates its update records exactly the enabled apps of the target, if Init gets to run at all. */
  lemma {:induction false} CreationRecordsApps(c: Ctx, us: Updates, env: Env)
    requires Inv(us) && Checked(c, us) && c.runner.None? && env.init.Ran?
    ensures var us' := Replay(us, Init(c, us, env).fx);
            |us'| == |us| + 1 && us'[|us|].uris == Uris(c.to.apps)
  {
    hide Replay;
    var us0, c0 := us + [Update(c.to.id, [], Created, 0)], c.(runner := Some(|us|));
    InitCreates(c, us, env);
    ApplyKeepsInv(us, New(c.to.id));
    InitResumed(c0, us0, env);
    ReplayConcat(us, [New(c.to.id)], Init(c0, us0, env).fx);
  }

  /** The runner is given the apps of the target when it initializes an update just created, and none when it goes on
      with an initialization begun before. */
  lemma {:induction false} InitIsGivenApps(c: Ctx, us: Updates, env: Env, i: nat)
    requires Inv(us) && Drives(c, us, 0) && i < |Init(c, us, env).fx| && Init(c, us, env).fx[i].Call?
    ensures var stage := us[|us| - 1].stage;
            && stage in {Created, Initializing}
            && Init(c, us, env).fx[i] == Call(|us| - 1, InitOp, if stage.Created? then Uris(c.to.apps) else [])
  {
    hide Replay;
    Grammar.InitShape(c, us, env);
  }

  /** The enabled apps of the target that an update is for, as listed. */
  function Wanted(u: Update, ts: seq<Target>, cfg: Config): seq<string> {
    Uris(KeepNamed(ById(ts, u.ref).apps, cfg.enabled))
  }

  /** A run that resumes a created update before Init has run records no apps, whatever the listed target asks for:
      the app list of an update not yet initialized is empty, and resuming keeps only listed apps. */
  lemma {:induction false} ResumedCreationRecordsNothing(opts: CheckOpts, us: Updates, cfg: Config, env: Env)
    requires Inv(us) && Current(us).Some? && us[|us| - 1].stage.Created? && env.init.Ran?
    requires Check(opts, FRESH, us, cfg, env).err.None?
    ensures var us' := Replay(us, Init(Check(opts, FRESH, us, cfg, env).c, us, env).fx);
            |us'| == |us| && us'[|us| - 1].uris == []
  {
    hide Replay, Check;
    var c := Check(opts, FRESH, us, cfg, env).c;
    ResumedApps(opts, us, cfg, env);
    assert Consistent(us[|us| - 1]);
    CheckLeaves(opts, FRESH, us, cfg, env);
    InitResumed(c, us, env);
  }

  /** So it records what the listed target asks for exactly if that is nothing. */
  lemma {:induction false} ResumedCreationRecordsAppsIff(opts: CheckOpts, us: Updates, cfg: Config, env: Env)
    requires Inv(us) && Current(us).Some? && us[|us| - 1].stage.Created? && env.init.Ran?
    requires Check(opts, FRESH, us, cfg, env).err.None?
    ensures var c := Check(opts, FRESH, us, cfg, env).c;
            var us' := Replay(us, Init(c, us, env).fx);
            var wanted := Wanted(us[|us| - 1], c.targets, cfg);
            |us'| == |us| && (us'[|us| - 1].uris == wanted <==> wanted == [])
  {
    hide Replay, Check, Init;
    ResumedCreationRecordsNothing(opts, us, cfg, env);
  }

  lemma {:induction false} ResumedApps(opts: CheckOpts, us: Updates, cfg: Config, env: Env)
    requires Inv(us) && Current(us).Some? && us[|us| - 1].stage.Created?
    requires Check(opts, FRESH, us, cfg, env).err.None?
    ensures Check(opts, FRESH, us, cfg, env).c.to.apps == []
  {
    hide Diff, FromTarget, InSync, TargetOf, Latest, SyncTarget, CountFailed;
    var u := us[|us| - 1];
    assert Consistent(u);
    var ts := LoadTargets(opts, env);
    assert ts.Some? && TargetOf(u, ts.value, env.parse).Some?;
    NoUrisNoApps(u, ts.value, env.parse, cfg);
  }

  const FORCED: UpdateOpts := UpdateOpts(true, false, 0, false)

  /** An update dies between the creation and Init, and the next run completes it: the completed update has no apps,
      although its target has one. */
  lemma {:induction false} DeathAtCreationLosesApps(cfg: Config, env: Env, app: App, id: string)
    requires Good(cfg, env) && env.reloaded == Loaded([Target(id, 7, [app])]) && cfg.enabled.None?
    requires id != UNKNOWN.id && cfg.versionLimit <= 0
    ensures var run := UpdateAction(-1, FORCED);
            var steps := [RunStep(run, cfg, env, Some(1)), RunStep(run, cfg, env, None)];
            Replay([], History([], steps)) == [Update(id, [], Completed, 5)]
  {
    hide Replay, Act, Good, TargetOf, Selected;
    var t, run := Target(id, 7, [app]), UpdateAction(-1, FORCED);
    var ts := [t];
    var us := [Update(id, [], Created, 0)];
    OneListed(t, cfg);
    StartsWithNew(run, cfg, env, ts);
    var died, again := RunStep(run, cfg, env, Some(1)), RunStep(run, cfg, env, None);
    assert Act(run, [], cfg, env).fx[..1] == [New(id)];
    assert StepEffects([], died) == [New(id)] && StepEffects(us, again) == Act(run, us, cfg, env).fx;
    hide StepEffects;
    TwoStepHistory(died, again);
    OneStep([], New(id));
    assert Replay([], [New(id)]) == us;
    ReplayConcat([], [New(id)], Act(run, us, cfg, env).fx);
    TargetListed(us[0], ts, env.parse);
    GoodResumes(us, cfg, env, FORCED);
    ResumeCompletes(us, cfg, env, FORCED);
  }

  /** The run that does not die records the app. */
  lemma {:induction false} WholeRunRecordsApps(cfg: Config, env: Env, app: App, id: string)
    requires Good(cfg, env) && env.reloaded == Loaded([Target(id, 7, [app])]) && cfg.enabled.None?
    requires id != UNKNOWN.id && cfg.versionLimit <= 0
    ensures Replay([], History([], [RunStep(UpdateAction(-1, FORCED), cfg, env, None)]))
            == [Update(id, [app.uri], Completed, 5)]
  {
    hide Replay, Act, Good, Emits, Selected;
    NoSteps([]);
    var t, step := Target(id, 7, [app]), RunStep(UpdateAction(-1, FORCED), cfg, env, None);
    var ts := [t];
    OneListed(t, cfg);
    OneStepHistory(step);
    OneShot([], -1, false, cfg, env, ts);
    assert Uris(KeepNamed([app], cfg.enabled)) == [app.uri];
  }

  lemma {:induction false} OneListed(t: Target, cfg: Config)
    requires t.version > UNKNOWN.version && cfg.versionLimit <= 0
    ensures Selected(-1, [t], cfg) == t && ById([t], t.id) == t
  {
    assert Latest([], cfg.versionLimit) == UNKNOWN && [t][..0] == [];
  }

  lemma {:induction false} TwoStepHistory(s: Step, s': Step)
    ensures var fx := StepEffects([], s); History([], [s, s']) == fx + StepEffects(Replay([], fx), s')
  {
    hide StepEffects, Replay;
    OneStepHistory(s);
    assert [s, s'][..1] == [s];
  }

  lemma {:induction false} GoodResumes(us: Updates, cfg: Config, env: Env, opts: UpdateOpts)
    requires Good(cfg, env) && env.reloaded.Loaded? && Current(us).Some? && !opts.requireLatest
    requires TargetOf(us[|us| - 1], env.reloaded.targets, env.parse).Some?
    ensures CanResume(us, cfg, env, opts)
  {
  }

  lemma {:induction false} TargetListed(u: Update, ts: seq<Target>, parse: map<string, App>)
    requires !IsUnknown(ById(ts, u.ref))
    ensures TargetOf(u, ts, parse).Some?
  {
  }

  lemma {:induction false} OneStepHistory(s: Step)
    ensures History([], [s]) == StepEffects([], s)
  {
    hide StepEffects;
    assert [s][..0] == [];
    NoSteps([]);
    assert [] + StepEffects([], s) == StepEffects([], s);
  }

  lemma {:induction false} StartsWithNew(run: Action, cfg: Config, env: Env, ts: seq<Target>)
    requires run == UpdateAction(-1, UpdateOpts(true, false, 0, false))
    requires Good(cfg, env) && env.reloaded == Loaded(ts) && Selected(-1, ts, cfg).id != UNKNOWN.id
    ensures var fx := Act(run, [], cfg, env).fx; |fx| > 0 && fx[0] == New(Selected(-1, ts, cfg).id)
  {
    hide Act, Run, Check, Selected, NoSpace, AfterCheck, Replay;
    StagesAre(-1, run.opts);
    ActIs(run, [], cfg, env);
    CheckSelects(Opts(run), [], cfg, env);
    var c0 := Check(Opts(run), FRESH, [], cfg, env).c;
    RunCreates(AFTER_CHECK, c0.(num := c0.num + 1), [], cfg, env);
  }
}
