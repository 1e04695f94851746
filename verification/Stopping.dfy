// What Stop stops: the choice of one stage, and what it comes to over a whole run.

module Stopping {
  import opened Options
  import opened Targets
  import opened Runner
  import opened Stages
  import opened Histories
  import opened Stepwise
  import opened Decisions

  /** The apps Stop is meant to stop: all of the current target for a version change or a forced update,
      else those removed and those to sync that are not known to be healthy. */
  predicate Intended(c: Ctx, a: App) {
    if c.kind.VersionUpdate? || c.forced then a in c.from.apps
    else a in c.diff.remove || (a in c.diff.sync && !(c.status.Some? && Healthy(c.status.value, a.uri)))
  }

  predicate Stopped(fx: seq<Effect>, uri: string) {
    exists i :: 0 <= i < |fx| && fx[i].StopApps? && uri in fx[i].uris
  }

  lemma {:induction false} StopSends(c: Ctx, us: Updates, env: Env)
    requires StageAt(us, Id(c)) in {Fetched, Installing}
    ensures var fx, apps := Stop(c, us, env).fx, AppsToStop(c);
            forall i :: 0 <= i < |fx| ==> if i == 1 && apps != [] then fx[i] == StopApps(Uris(apps)) else fx[i].Emit?
    ensures AppsToStop(c) != [] ==> |Stop(c, us, env).fx| >= 2
  {
    hide AppsToStop;
  }

  /** Stop stops exactly the intended apps, and never by an empty list, which would stop all. */
  lemma {:induction false} StopsExactlyIntended(c: Ctx, us: Updates, env: Env, uri: string)
    requires StageAt(us, Id(c)) in {Fetched, Installing}
    ensures var fx := Stop(c, us, env).fx;
            && (Stopped(fx, uri) <==> exists a :: Intended(c, a) && a.uri == uri)
            && forall i :: 0 <= i < |fx| && fx[i].StopApps? ==> fx[i].uris != []
  {
    var apps := AppsToStop(c);
    UrisOf(apps, uri);
    StopSends(c, us, env);
    assert forall a :: a in apps <==> Intended(c, a);
    hide Stop, Intended;
    var fx := Stop(c, us, env).fx;
    if apps != [] { assert fx[1].StopApps?; }
  }

  /** A new unforced sync that goes ahead with something to sync and a readable status reaches Stop with that status. */
  lemma {:induction false} StopHasStatus(opts: CheckOpts, us: Updates, cfg: Config, env: Env)
    requires !opts.force && env.status.Some?
    ensures var check := Check(opts, FRESH, us, cfg, env);
            var init := Init(check.c, us, env);
            var fetch := Fetch(init.c, Replay(us, init.fx), cfg, env);
            check.err.None? && NewSync(check.c) && check.c.diff.sync != [] ==>
              check.c.status == init.c.status == fetch.c.status == env.status
  {
    hide Replay, OpEffects, Check, Required;
    var check := Check(opts, FRESH, us, cfg, env);
    if check.err.None? { CheckDecides(opts, FRESH, us, cfg, env); }
  }

  // Whole runs.

  predicate Stops(fx: seq<Effect>) {
    exists i :: 0 <= i < |fx| && fx[i].StopApps?
  }

  predicate Installs(fx: seq<Effect>) {
    exists i :: 0 <= i < |fx| && fx[i].Emit? && fx[i].kind.InstallationStarted?
  }

  /** If an installation starts these apps are stopped, unless there are none; and nothing else is ever stopped. */
  predicate StopsOnly(fx: seq<Effect>, apps: seq<App>) {
    && (Stops(fx) <==> Installs(fx) && apps != [])
    && (forall i :: 0 <= i < |fx| && fx[i].StopApps? ==> fx[i].uris == Uris(apps))
  }

  lemma {:induction false} StopsConcat(a: seq<Effect>, b: seq<Effect>, apps: seq<App>)
    requires StopsOnly(a, apps) && StopsOnly(b, apps)
    ensures StopsOnly(a + b, apps)
  {
    var fx := a + b;
    assert forall i :: 0 <= i < |a| ==> fx[i] == a[i];
    assert forall i :: 0 <= i < |b| ==> fx[|a| + i] == b[i];
  }

  lemma {:induction false} QuietStops(fx: seq<Effect>, apps: seq<App>)
    requires forall i :: 0 <= i < |fx| ==> !fx[i].StopApps? && !(fx[i].Emit? && fx[i].kind.InstallationStarted?)
    ensures StopsOnly(fx, apps)
  {
  }

  lemma {:induction false} StopStopsOnly(c: Ctx, us: Updates, env: Env)
    ensures StopsOnly(Stop(c, us, env).fx, AppsToStop(c))
  {
    hide AppsToStop;
    var fx := Stop(c, us, env).fx;
    if Legal(InstallOp, StageAt(us, Id(c))) {
      assert fx[0].Emit? && fx[0].kind.InstallationStarted?;
      if AppsToStop(c) != [] { assert fx[1].StopApps?; }
    }
  }

  lemma {:induction false} CompleteStopsNothing(us: Updates, id: nat, rs: seq<OpResult>)
    ensures forall i :: 0 <= i < |Complete(us, id, rs)| ==>
              !Complete(us, id, rs)[i].StopApps? && !Complete(us, id, rs)[i].Emit?
    decreases |rs|
  {
    hide Replay;
    if rs != [] { CompleteStopsNothing(Replay(us, OpEffects(us, id, CompleteOp, [], rs[0])), id, rs[1..]); }
  }

  lemma {:induction false} StartStopsNothing(c: Ctx, us: Updates, env: Env, apps: seq<App>)
    ensures StopsOnly(Start(c, us, env).fx, apps)
  {
    hide Replay, StopsOnly, Complete;
    var id := Id(c);
    var fx0 := if Legal(StartOp, StageAt(us, id)) then OpEffects(us, id, StartOp, [], env.start) else [];
    CompleteStopsNothing(Replay(us, fx0), id, env.complete);
    QuietStops(Start(c, us, env).fx, apps);
  }

  lemma {:induction false} InitStopsNothing(c: Ctx, us: Updates, env: Env, apps: seq<App>)
    ensures StopsOnly(Init(c, us, env).fx, apps) && AppsToStop(Init(c, us, env).c) == AppsToStop(c)
  {
    hide StopsOnly, Replay;
    QuietStops(Init(c, us, env).fx, apps);
  }

  lemma {:induction false} FetchStopsNothing(c: Ctx, us: Updates, cfg: Config, env: Env, apps: seq<App>)
    ensures StopsOnly(Fetch(c, us, cfg, env).fx, apps) && AppsToStop(Fetch(c, us, cfg, env).c) == AppsToStop(c)
  {
    hide StopsOnly, Required;
    QuietStops(Fetch(c, us, cfg, env).fx, apps);
  }

  lemma {:induction false} InstallStopsNothing(c: Ctx, us: Updates, env: Env, apps: seq<App>)
    ensures StopsOnly(Install(c, us, env).fx, apps)
    ensures Install(c, us, env).err.None? ==> Install(c, us, env).c == c
  {
    hide StopsOnly;
    QuietStops(Install(c, us, env).fx, apps);
  }

  lemma {:induction false} StageStops(s: ActionState, c: Ctx, us: Updates, cfg: Config, env: Env)
    requires !s.CheckState?
    ensures var o := Execute(s, c, us, cfg, env);
            StopsOnly(o.fx, AppsToStop(c)) && (o.err.None? && !s.StartState? ==> AppsToStop(o.c) == AppsToStop(c))
  {
    var apps := AppsToStop(c);
    StopStopsOnly(c, us, env);
    assert Stop(c, us, env).err.None? ==> Stop(c, us, env).c == c;
    ExecuteIs(c, us, cfg, env);
    hide StopsOnly, AppsToStop, Execute, Init, Fetch, Stop, Install, Start;
    match s {
      case InitState => InitStopsNothing(c, us, env, apps);
      case FetchState => FetchStopsNothing(c, us, cfg, env, apps);
      case StopState =>
      case InstallState => InstallStopsNothing(c, us, env, apps);
      case StartState => StartStopsNothing(c, us, env, apps);
    }
  }

  lemma {:induction false} RunStops(states: seq<ActionState>, level: nat, c: Ctx, us: Updates, cfg: Config, env: Env)
    requires Ordered(states, level) && level > 0
    ensures StopsOnly(Run(states, c, us, cfg, env).fx, AppsToStop(c))
    decreases |states|
  {
    hide Replay, Execute, Run, AppsToStop, StopsOnly;
    if states == [] {
      RunNone(c, us, cfg, env);
      QuietStops([], AppsToStop(c));
    } else {
      RunByStages(states, c, us, cfg, env);
      StageStops(states[0], c, us, cfg, env);
      var o := Execute(states[0], c, us, cfg, env);
      if o.err.None? {
        var c' := o.c.(num := o.c.num + 1);
        var rest := Run(states[1..], c', Replay(us, o.fx), cfg, env);
        if states[0].StartState? {
          RunNone(c', Replay(us, o.fx), cfg, env);
          assert o.fx + [] == o.fx;
        } else {
          NumStopsSame(o.c, o.c.num + 1);
          RunStops(states[1..], Max(level, Gives(states[0])), c', Replay(us, o.fx), cfg, env);
          StopsConcat(o.fx, rest.fx, AppsToStop(c));
        }
      }
    }
  }

  lemma {:induction false} NumStopsSame(c: Ctx, num: nat)
    ensures AppsToStop(c.(num := num)) == AppsToStop(c)
  {
  }

  /** The apps of the current target that an update has to stop. For another target, or by force, all of them. Else
      those whose name the target does not have any more, and those that stay as they are without being known to be
      healthy: only a new update knows the status. */
  predicate MustStop(from: Target, to: Target, force: bool, status: Option<Status>, a: App) {
    if force || from.id != to.id then a in from.apps
    else
      LastOfName(from.apps, a)
      && (!Named(to.apps, a.name) || (FirstOfName(to.apps, a) && (status.None? || !Healthy(status.value, a.uri))))
  }

  lemma {:induction false} IntendedIs(c: Ctx, a: App, status: Option<Status>)
    requires c.diff == Diff(c.from.apps, c.to.apps) && (c.kind.SyncUpdate? <==> c.from.id == c.to.id)
    requires c.diff.sync != [] ==> c.status == status
    ensures a in AppsToStop(c) <==> MustStop(c.from, c.to, c.forced, status, a)
  {
    DiffSplits(c.from.apps, c.to.apps);
    hide Diff;
  }

  /** Fetch is forced, install and start are not, and an update is if it is told to. */
  predicate Forces(a: Action) {
    a.FetchAction? || (a.UpdateAction? && a.opts.force)
  }

  /** A run that starts an installation stops exactly the apps that have to be stopped, by name and URI; no other run
      stops any, and none asks to stop an empty list. */
  lemma {:induction false} RunStopsExactly(a: Action, us: Updates, cfg: Config, env: Env, uri: string)
    ensures var fx, check := Act(a, us, cfg, env).fx, Check(Opts(a), FRESH, us, cfg, env);
            var status := if Current(us).None? then env.status else None;
            && (Stopped(fx, uri) <==>
                  Installs(fx)
                  && exists app :: MustStop(check.c.from, check.c.to, Forces(a), status, app) && app.uri == uri)
            && (forall i :: 0 <= i < |fx| && fx[i].StopApps? ==> fx[i].uris != [])
  {
    hide Act, Run, Check, AfterCheck, Replay;
    ActIs(a, us, cfg, env);
    var check := Check(Opts(a), FRESH, us, cfg, env);
    var fx, apps := Act(a, us, cfg, env).fx, AppsToStop(check.c);
    if check.err.None? {
      CheckDecides(Opts(a), FRESH, us, cfg, env);
      AfterCheckIsOrdered(a);
      RunStops(AfterCheck(a), 1, check.c.(num := check.c.num + 1), us, cfg, env);
      NumStopsSame(check.c, check.c.num + 1);
      var status := if Current(us).None? then env.status else None;
      forall app ensures app in apps <==> MustStop(check.c.from, check.c.to, Forces(a), status, app) {
        if !Forces(a) && check.c.kind.SyncUpdate? { IntendedIs(check.c, app, status); }
      }
      UrisOf(apps, uri);
      hide AppsToStop, MustStop;
      StoppedIff(fx, apps, uri);
    }
  }

  lemma {:induction false} StoppedIff(fx: seq<Effect>, apps: seq<App>, uri: string)
    requires StopsOnly(fx, apps)
    ensures Stopped(fx, uri) <==> Installs(fx) && uri in Uris(apps)
  {
  }

  lemma {:induction false} AfterCheckIsOrdered(a: Action)
    ensures Ordered(AfterCheck(a), 1)
  {
    ActionsAreOrdered(a);
  }
}
