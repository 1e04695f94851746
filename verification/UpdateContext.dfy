// The update context and its stages as the program runs them: fields updated in
// place, one environment answer after another. Each method is proved against the
// function of the same stage in Stages.dfy.

module UpdateContexts {
  import opened Options
  import opened Targets
  import opened Runner
  import opened Stages
  import FreeSpace

  /** The database of updates, with the log of everything done so far. */
  class Store {
    var updates: Updates
    ghost var log: seq<Effect>

    constructor (updates: Updates)
      ensures this.updates == updates && log == []
    {
      this.updates := updates;
      log := [];
    }

    /** What the store holds after `fx`. */
    ghost predicate Did(us: Updates, log0: seq<Effect>, fx: seq<Effect>)
      reads this
    {
      updates == Replay(us, fx) && log == log0 + fx
    }

    method Do(e: Effect, ghost us: Updates, ghost log0: seq<Effect>, ghost fx: seq<Effect>)
      requires Did(us, log0, fx)
      modifies this
      ensures updates == Apply(old(updates), e)
      ensures Did(us, log0, fx + [e])
    {
      ReplayConcat(us, fx, [e]);
      OneStep(Replay(us, fx), e);
      updates := Apply(updates, e);
      log := log + [e];
    }

    /** One runner operation under the contract of Runner.dfy. */
    method Op(
      id: nat, op: Op, uris: seq<string>, r: OpResult,
      ghost us: Updates, ghost log0: seq<Effect>, ghost fx: seq<Effect>)
      returns (ok: bool)
      requires Did(us, log0, fx)
      modifies this
      ensures ok == OpSucceeds(old(updates), id, op, r)
      ensures updates == Replay(old(updates), OpEffects(old(updates), id, op, uris, r))
      ensures Did(us, log0, fx + OpEffects(old(updates), id, op, uris, r))
    {
      ghost var before, start := updates, log;
      ghost var done := OpEffects(before, id, op, uris, r);
      hide Replay;
      NoSteps(before);
      assert start + [] == start;
      ok := false;
      if Legal(op, StageAt(updates, id)) && r.Ran? {
        Do(Call(id, op, uris), before, start, []);
        Do(Mark(id, op, uris), before, start, [] + [Call(id, op, uris)]);
        Do(End(id, op, r.outcome), before, start, [] + [Call(id, op, uris)] + [Mark(id, op, uris)]);
        ok := r.outcome.Done?;
        assert [] + [Call(id, op, uris)] + [Mark(id, op, uris)] + [End(id, op, r.outcome)] == done;
      } else {
        Do(Call(id, op, uris), before, start, []);
        Do(End(id, op, Error), before, start, [] + [Call(id, op, uris)]);
        assert [] + [Call(id, op, uris)] + [End(id, op, Error)] == done;
      }
      ReplayConcat(us, fx, done);
      assert log0 + fx + done == log0 + (fx + done);
    }
  }

  lemma {:induction false} NotHealthyNone(st: Option<Status>)
    ensures NotHealthy([], st) == []
  {
  }

  lemma {:induction false} NotHealthyStep(apps: seq<App>, i: nat, st: Option<Status>)
    requires i < |apps|
    ensures NotHealthy(apps[..i + 1], st)
            == NotHealthy(apps[..i], st) + if st.None? || !Healthy(st.value, apps[i].uri) then [apps[i]] else []
  {
    assert apps[..i + 1][..i] == apps[..i];
  }

  class UpdateContext {
    const store: Store
    const cfg: Config

    var mode: Mode
    var kind: UpdateType
    var from: Target
    var to: Target
    var targets: seq<Target>
    var diff: AppDiff
    var status: Option<Status>
    var forced: bool
    var alreadyFetched: bool
    var usage: Option<Storage>
    var runner: Option<nat>
    var num: nat

    ghost function View(): Ctx
      reads this
    {
      Ctx(mode, kind, from, to, targets, diff, status, forced, alreadyFetched, usage, runner, num)
    }

    constructor (store: Store, cfg: Config)
      ensures this.store == store && this.cfg == cfg && View() == FRESH
    {
      this.store, this.cfg := store, cfg;
      mode, kind, from, to, targets := NewUpdate, VersionUpdate, NO_TARGET, NO_TARGET, [];
      diff := AppDiff([], [], [], [], []);
      status, forced, alreadyFetched, usage, runner, num := None, false, false, None, None, 1;
    }

    // Check (check.go).

    method GetOngoingUpdateTarget(env: Env) returns (t: Option<Target>)
      requires runner.Some?
      ensures t == if Id(View()) < |store.updates| then TargetOf(store.updates[Id(View())], targets, env.parse)
                   else None
    {
      t := None;
      if runner.value < |store.updates| { t := TargetOf(store.updates[runner.value], targets, env.parse); }
    }

    method GetAndSetCurrentTarget(env: Env)
      modifies this`from
      ensures View() == old(View()).(from := FromTarget(store.updates, targets, env))
    {
      from := UNKNOWN;
      var last := LastSuccess(store.updates);
      if env.lastReadable && last.Some? {
        var t := TargetOf(last.value, targets, env.parse);
        if t.Some? { from := t.value; }
      }
    }

    method SelectToTarget(opts: CheckOpts, env: Env) returns (err: Option<Error>)
      requires mode.Resume? ==> runner.Some?
      modifies this`to
      ensures var sel := Select(old(View()), store.updates, opts, cfg, env);
              View() == old(View()).(to := sel.to) && err == sel.err
    {
      err := None;
      if mode.Resume? {
        var t := GetOngoingUpdateTarget(env);
        if t.None? { return Some(ErrInvalidOngoingUpdate); }
        to := t.value;
        if opts.toVersion != -1 {
          if to.version != opts.toVersion { return Some(ErrInvalidActionForState); }
        } else if opts.requireLatest {
          if Latest(targets, cfg.versionLimit).id != to.id { return Some(ErrNewerVersionIsAvailable); }
        }
      } else if opts.toVersion == -1 {
        if opts.syncCurrent { to := SyncTarget(targets, from); } else { to := Latest(targets, cfg.versionLimit); }
        if to.id == UNKNOWN.id { return Some(ErrTargetNotFound); }
        if opts.maxAttempts > 0 && env.countReadable {
          var count := CountFailed(store.updates, to.id);
          if count >= opts.maxAttempts { to := SyncTarget(targets, from); }
        }
      } else {
        to := ByVersion(targets, opts.toVersion);
        if to.id == UNKNOWN.id { return Some(ErrTargetNotFound); }
      }
    }

    method CheckAppDiff() returns (detected: bool)
      ensures detected == ListChanged(diff)
    {
      detected := false;
      var toCheck := [diff.add, diff.remove, diff.update];
      for i := 0 to 3
        invariant detected <==> exists k :: 0 <= k < i && toCheck[k] != []
      {
        var list := toCheck[i];
        for j := 0 to |list|
          invariant detected <==> j > 0 || exists k :: 0 <= k < i && toCheck[k] != []
        {
          detected := true;
        }
      }
      assert (exists k :: 0 <= k < 3 && toCheck[k] != []) <==> toCheck[0] != [] || toCheck[1] != [] || toCheck[2] != [];
    }

    /** With its early exits this answers the plain question: do the lists agree and is every app healthy? */
    method IsTargetInSync(env: Env) returns (running: bool, failed: bool)
      modifies this`status
      ensures View() == old(View()).(status := if ReadsStatus(old(View())) then env.status else old(status))
      ensures (running && !failed) <==> InSync(old(View()), env.status)
    {
      var changed := CheckAppDiff();
      if changed && |diff.sync| == 0 { return false, false; }
      status := env.status;
      if status.None? { return false, true; }
      if changed { return false, false; }
      var uris := Uris(to.apps);
      for i := 0 to |uris|
        invariant forall k :: 0 <= k < i ==> Healthy(status.value, uris[k])
      {
        assert uris[i] in uris;
        if uris[i] !in status.value { return false, false; }
        var app := status.value[uris[i]];
        if !app.fetched { return false, false; }
        if !app.installed { return false, false; }
        if !app.running { return false, false; }
      }
      return true, false;
    }

    method IsUpdateRequired(env: Env) returns (required: bool)
      modifies this`status
      ensures View() == old(View()).(status := if NewSync(old(View())) && ReadsStatus(old(View()))
                                               then env.status else old(status))
      ensures required <==> !(NewSync(old(View())) && InSync(old(View()), env.status))
    {
      if kind != SyncUpdate || mode != NewUpdate { return true; }
      var running, failed := IsTargetInSync(env);
      if failed { return true; }
      return !running;
    }

    method LoadAndSetTargets(opts: CheckOpts, env: Env) returns (ok: bool)
      modifies this`targets
      ensures ok == LoadTargets(opts, env).Some?
      ensures View() == old(View()).(targets := if ok then LoadTargets(opts, env).value else old(targets))
    {
      if !env.repo || env.cached.LoadFailed? { return false; }
      var ts := if env.cached.Loaded? then env.cached.targets else [];
      if opts.updateTargets {
        if !env.reloaded.Loaded? { return false; }
        ts := env.reloaded.targets;
      }
      targets := ts;
      return true;
    }

    method ExecuteCheck(opts: CheckOpts, env: Env) returns (err: Option<Error>)
      modifies this
      ensures var o := Check(opts, old(View()), store.updates, cfg, env);
              View() == o.c && err == o.err
    {
      hide Select, FromTarget, LoadTargets, Decide, Prepared, Current;
      forced := opts.force;
      if !env.lookup {
        mode := Resume;
        return Some(ErrUpdateLookup);
      }
      runner := Current(store.updates);
      if runner.None? {
        if !opts.allowNew { return Some(ErrNoUpdateInProgress); }
        mode := NewUpdate;
      } else {
        mode := Resume;
      }
      if |opts.allowed| > 0 {
        if runner.None? || StageAt(store.updates, runner.value) !in opts.allowed {
          return Some(ErrInvalidActionForState);
        }
      }
      var loaded := LoadAndSetTargets(opts, env);
      if !loaded { return Some(ErrMetaUpdateFailed); }
      GetAndSetCurrentTarget(env);
      err := SelectToTarget(opts, env);
      if err.Some? { return; }
      err := CompareTargets(opts, env);
    }

    /** The end of Execute: the kind of the update, the differences, and whether there is anything to do. */
    method CompareTargets(opts: CheckOpts, env: Env) returns (err: Option<Error>)
      modifies this
      ensures var o := Decide(opts, Prepared(old(View()), cfg), env);
              View() == o.c && err == o.err
    {
      to := to.(apps := KeepNamed(to.apps, cfg.enabled));
      kind := if to.id == from.id then SyncUpdate else VersionUpdate;
      diff := Diff(from.apps, to.apps);
      if !opts.force {
        var required := IsUpdateRequired(env);
        if !required { return Some(ErrCheckNoUpdate); }
      }
      return None;
    }

    /** SendEvent, on the update that the context drives. */
    method SendEvent(
      kind: Kind, success: Option<bool>, ghost us: Updates, ghost log0: seq<Effect>, ghost fx: seq<Effect>)
      requires runner.Some? && store.Did(us, log0, fx)
      modifies store
      ensures store.updates == old(store.updates)
      ensures store.Did(us, log0, fx + [Emit(Id(View()), to.id, kind, success)])
    {
      store.Do(Emit(runner.value, to.id, kind, success), us, log0, fx);
    }

    /** Every stage below leaves the context and the store as its function in Stages.dfy says. */
    ghost predicate Ended(us: Updates, log0: seq<Effect>, o: Out, err: Option<Stages.Error>)
      reads this, store
    {
      View() == o.c && err == o.err && store.Did(us, log0, o.fx)
    }

    // Init (init.go).

    method ExecuteInit(env: Env) returns (err: Option<Stages.Error>)
      modifies this, store
      ensures Ended(old(store.updates), old(store.log), Init(old(View()), old(store.updates), env), err)
      ensures runner.Some?
    {
      ghost var us, log0 := store.updates, store.log;
      hide Replay;
      NoSteps(us);
      if runner.Some? {
        err := InitializeApps(env, us, log0, []);
      } else {
        OneStep(us, New(to.id));
        runner := Some(|store.updates|);
        store.Do(New(to.id), us, log0, []);
        assert [] + [New(to.id)] == [New(to.id)];
        err := InitializeApps(env, us, log0, [New(to.id)]);
      }
    }

    /** Init once the update exists. */
    method InitializeApps(env: Env, ghost us: Updates, ghost log0: seq<Effect>, ghost fx: seq<Effect>)
      returns (err: Option<Stages.Error>)
      requires runner.Some? && store.Did(us, log0, fx)
      modifies store
      ensures var id, now := Id(View()), old(store.updates);
              var ok := OpSucceeds(now, id, InitOp, env.init);
              if StageAt(now, id) in {Created, Initializing} then
                && err == (if ok then None else Some(ErrInitFailed))
                && store.Did(us, log0, fx + [Emit(id, to.id, InitStarted, None)]
                                       + OpEffects(now, id, InitOp, AppsToInit(View(), StageAt(now, id)), env.init)
                                       + [Emit(id, to.id, InitCompleted, Some(ok))])
              else err == None && store.Did(us, log0, fx)
    {
      hide Replay;
      var id, s := runner.value, StageAt(store.updates, runner.value);
      err := None;
      if s.Created? || s.Initializing? {
        var apps := if s.Created? then Uris(to.apps) else [];
        SendEvent(InitStarted, None, us, log0, fx);
        ghost var before, fx1 := store.updates, fx + [Emit(id, to.id, InitStarted, None)];
        var ok := store.Op(id, InitOp, apps, env.init, us, log0, fx1);
        SendEvent(InitCompleted, Some(ok), us, log0, fx1 + OpEffects(before, id, InitOp, apps, env.init));
        if !ok { err := Some(ErrInitFailed); }
      }
    }

    // Fetch (fetch.go).

    method GetAndSetStorageUsage(reading: Option<nat>) returns (ok: bool)
      modifies this`usage
      ensures View() == WithUsage(old(View()), reading) && ok == reading.Some?
    {
      ok := reading.Some?;
      if ok { usage := Some(Storage(reading.value, None)); }
    }

    method CheckFreeSpace(env: Env) returns (ok: bool)
      requires usage.Some?
      modifies this`usage
      ensures View() == old(View()).(usage := Some(Storage(old(usage).value.available, Some(Required(cfg, env)))))
      ensures ok == (Required(cfg, env) <= old(usage).value.available)
    {
      var required := FreeSpace.RequiredBytes(env.blobs, cfg.block);
      usage := Some(usage.value.(required := Some(required)));
      ok := required <= usage.value.available;
    }

    method ExecuteFetch(env: Env) returns (err: Option<Stages.Error>)
      requires runner.Some?
      modifies this, store
      ensures Ended(old(store.updates), old(store.log), Fetch(old(View()), old(store.updates), cfg, env), err)
      ensures runner == old(runner)
    {
      ghost var us, log0 := store.updates, store.log;
      hide Replay, Download;
      NoSteps(us);
      var s := StageAt(store.updates, runner.value);
      if s.Created? || s.Initializing? { return Some(ErrInvalidActionForState); }
      if s.Initialized? || s.Fetching? {
        err := ExecuteDownload(env);
      } else {
        alreadyFetched := true;
        return None;
      }
    }

    /** Whether the space is known to be short. */
    method CheckStorage(env: Env) returns (short: bool)
      modifies this`usage
      ensures short == NoSpace(cfg, env)
      ensures View() == if env.usageBefore.Some?
                        then old(View()).(usage := Some(Storage(env.usageBefore.value, Some(Required(cfg, env)))))
                        else old(View())
    {
      hide Required;
      var known := GetAndSetStorageUsage(env.usageBefore);
      if !known { return false; }
      var enough := CheckFreeSpace(env);
      return !enough;
    }

    method ExecuteDownload(env: Env) returns (err: Option<Stages.Error>)
      requires runner.Some?
      modifies this, store
      ensures Ended(old(store.updates), old(store.log), Download(old(View()), old(store.updates), cfg, env), err)
      ensures runner == old(runner)
    {
      ghost var us, log0 := store.updates, store.log;
      hide Replay, Required, NoSpace;
      NoSteps(us);
      var id := runner.value;
      var short := CheckStorage(env);
      SendEvent(DownloadStarted, None, us, log0, []);
      ghost var started := [Emit(id, to.id, DownloadStarted, None)];
      assert [] + started == started;
      if short {
        SendEvent(DownloadCompleted, Some(false), us, log0, started);
        return Some(ErrFetchNoSpace);
      }
      err := FetchBlobs(env, us, log0);
    }

    method FetchBlobs(env: Env, ghost us: Updates, ghost log0: seq<Effect>) returns (err: Option<Stages.Error>)
      requires runner.Some? && store.updates == us
      requires store.Did(us, log0, [Emit(Id(View()), to.id, DownloadStarted, None)])
      modifies store, this`usage
      ensures var id, ok := Id(View()), OpSucceeds(us, Id(View()), FetchOp, env.fetch);
              && View() == WithUsage(old(View()), env.usageFetched)
              && err == (if ok then None else Some(ErrFetchFailed))
              && store.Did(us, log0, [Emit(id, to.id, DownloadStarted, None)]
                                     + OpEffects(us, id, FetchOp, [], env.fetch)
                                     + [Emit(id, to.id, DownloadCompleted, Some(ok))])
    {
      hide Replay;
      ghost var started := [Emit(Id(View()), to.id, DownloadStarted, None)];
      var ok := store.Op(runner.value, FetchOp, [], env.fetch, us, log0, started);
      var _ := GetAndSetStorageUsage(env.usageFetched);
      SendEvent(DownloadCompleted, Some(ok), us, log0, started + OpEffects(us, Id(View()), FetchOp, [], env.fetch));
      return if ok then None else Some(ErrFetchFailed);
    }

    // Stop (stop.go).

    /** Whether an app of the sync list has to be stopped. */
    method IsNotHealthy(app: App) returns (stop: bool)
      ensures stop <==> status.None? || !Healthy(status.value, app.uri)
    {
      if status.None? { return true; }
      if app.uri !in status.value { return true; }
      var st := status.value[app.uri];
      return !st.running || !st.installed || !st.fetched;
    }

    method ChooseAppsToStop() returns (apps: seq<App>)
      ensures apps == AppsToStop(View())
    {
      hide NotHealthy, Healthy;
      if kind == VersionUpdate || forced { return from.apps; }
      apps := diff.remove;
      ghost var sync: seq<App> := [];
      NotHealthyNone(status);
      for i := 0 to |diff.sync|
        invariant sync == NotHealthy(diff.sync[..i], status)
        invariant apps == diff.remove + sync
      {
        var app := diff.sync[i];
        NotHealthyStep(diff.sync, i, status);
        var stop := IsNotHealthy(app);
        if stop {
          apps := apps + [app];
          sync := sync + [app];
        }
      }
      assert diff.sync[..|diff.sync|] == diff.sync;
    }

    method SetStatus(reading: Option<Status>)
      modifies this`status
      ensures View() == WithStatus(old(View()), reading)
    {
      if reading.Some? { status := reading; }
    }

    /** An empty list is not passed on: it would stop all apps. */
    method StopChosen(apps: seq<App>, env: Env, ghost us: Updates, ghost log0: seq<Effect>, ghost fx: seq<Effect>)
      returns (ok: bool)
      requires store.Did(us, log0, fx)
      modifies store
      ensures ok == (apps == [] || env.stop)
      ensures store.Did(us, log0, fx + if apps == [] then [] else [StopApps(Uris(apps))])
    {
      assert fx + [] == fx;
      ok := true;
      if |apps| > 0 {
        store.Do(StopApps(Uris(apps)), us, log0, fx);
        ok := env.stop;
      }
    }

    /** Stop on an update that is to be installed. */
    method StopBeforeInstall(env: Env) returns (err: Option<Stages.Error>)
      requires runner.Some? && Legal(InstallOp, StageAt(store.updates, runner.value))
      modifies this, store
      ensures Ended(old(store.updates), old(store.log), StopRunning(old(View()), env), err)
      ensures runner == old(runner)
    {
      ghost var us, log0 := store.updates, store.log;
      hide Replay, AppsToStop;
      NoSteps(us);
      assert log0 + [] == log0;
      assert store.Did(us, log0, []);
      hide Store.Did, Uris;
      SendEvent(InstallationStarted, None, us, log0, []);
      ghost var fx := [Emit(runner.value, to.id, InstallationStarted, None)];
      assert [] + fx == fx;
      var apps := ChooseAppsToStop();
      var ok := StopChosen(apps, env, us, log0, fx);
      fx := fx + if apps == [] then [] else [StopApps(Uris(apps))];
      if ok { return None; }
      SetStatus(env.statusAfter);
      SendEvent(InstallationCompleted, Some(false), us, log0, fx);
      return Some(ErrStopAppsFailed);
    }

    method ExecuteStop(env: Env) returns (err: Option<Stages.Error>)
      requires runner.Some?
      modifies this, store
      ensures Ended(old(store.updates), old(store.log), Stop(old(View()), old(store.updates), env), err)
      ensures runner == old(runner)
    {
      hide Replay, StopRunning;
      NoSteps(store.updates);
      var s := StageAt(store.updates, runner.value);
      if PastInstall(s) { return None; }
      if !(s.Fetched? || s.Installing?) { return Some(ErrInvalidActionForState); }
      err := StopBeforeInstall(env);
    }

    // Install (install.go).

    method ExecuteInstall(env: Env) returns (err: Option<Stages.Error>)
      requires runner.Some?
      modifies this, store
      ensures Ended(old(store.updates), old(store.log), Install(old(View()), old(store.updates), env), err)
      ensures runner == old(runner)
    {
      ghost var us, log0 := store.updates, store.log;
      hide Replay;
      NoSteps(us);
      var id := runner.value;
      if PastInstall(StageAt(store.updates, id)) { return None; }
      var ok := store.Op(id, InstallOp, [], env.install, us, log0, []);
      ghost var fx := OpEffects(us, id, InstallOp, [], env.install);
      assert [] + fx == fx;
      if ok {
        SendEvent(InstallationApplied, None, us, log0, fx);
        return None;
      }
      SetStatus(env.statusAfter);
      SendEvent(InstallationCompleted, Some(false), us, log0, fx);
      return Some(ErrInstallFailed);
    }

    // Start (start.go).

    /** One attempt, and what it leaves of the series. */
    method TryComplete(env: Env, i: nat, ghost us: Updates, ghost log0: seq<Effect>, ghost fx: seq<Effect>)
      returns (ok: bool, ghost fx': seq<Effect>)
      requires runner.Some? && store.Did(us, log0, fx) && i < 4
      modifies store
      ensures store.Did(us, log0, fx')
      ensures fx + Complete(old(store.updates), Id(View()), env.complete[i..])
              == if ok then fx' else fx' + Complete(store.updates, Id(View()), env.complete[i + 1..])
    {
      hide Replay;
      ghost var rs := env.complete[i..];
      ghost var more := OpEffects(store.updates, runner.value, CompleteOp, [], rs[0]);
      assert rs[1..] == env.complete[i + 1..];
      ok := store.Op(runner.value, CompleteOp, [], env.complete[i], us, log0, fx);
      fx' := fx + more;
      ghost var rest := Complete(store.updates, runner.value, rs[1..]);
      assert fx + (more + rest) == fx + more + rest;
    }

    /** With pruning, again with pruning, without pruning, by force. */
    method CompleteUpdate(env: Env, ghost us: Updates, ghost log0: seq<Effect>, ghost fx: seq<Effect>)
      requires runner.Some? && store.Did(us, log0, fx)
      modifies store
      ensures store.Did(us, log0, fx + Complete(old(store.updates), Id(View()), env.complete))
    {
      hide Replay, Complete;
      assert env.complete[0..] == env.complete && env.complete[4..] == [];
      ghost var id := runner.value;
      var ok, fx1 := TryComplete(env, 0, us, log0, fx);
      if ok { return; }
      var ok2, fx2 := TryComplete(env, 1, us, log0, fx1);
      if ok2 { return; }
      var ok3, fx3 := TryComplete(env, 2, us, log0, fx2);
      if ok3 { return; }
      var ok4, fx4 := TryComplete(env, 3, us, log0, fx3);
      CompleteNone(store.updates, runner.value);
      assert fx4 + [] == fx4;
    }

    method ExecuteStart(env: Env) returns (err: Option<Stages.Error>)
      requires runner.Some?
      modifies this, store
      ensures Ended(old(store.updates), old(store.log), Start(old(View()), old(store.updates), env), err)
      ensures runner == old(runner)
    {
      ghost var us, log0 := store.updates, store.log;
      hide Replay, Complete;
      NoSteps(us);
      if !PastInstall(StageAt(store.updates, runner.value)) { return Some(ErrCannotStart); }
      var ok, fx := StartApps(env, us, log0);
      SetStatus(env.statusAfter);
      var _ := GetAndSetStorageUsage(env.usageAfter);
      SendEvent(InstallationCompleted, Some(ok), us, log0, fx);
      return if ok then None else Some(ErrStartFailed);
    }

    /** Start the apps unless they have been started, then complete the update. */
    method StartApps(env: Env, ghost us: Updates, ghost log0: seq<Effect>) returns (ok: bool, ghost fx: seq<Effect>)
      requires runner.Some? && store.updates == us && store.log == log0
      modifies store
      ensures var starts := Legal(StartOp, StageAt(us, Id(View())));
              var fx0 := if starts then OpEffects(us, Id(View()), StartOp, [], env.start) else [];
              && ok == (!starts || OpSucceeds(us, Id(View()), StartOp, env.start))
              && fx == fx0 + (if ok then Complete(Replay(us, fx0), Id(View()), env.complete) else [])
              && store.Did(us, log0, fx)
    {
      hide Replay, Complete;
      NoSteps(us);
      assert log0 + [] == log0;
      var id, s := runner.value, StageAt(store.updates, runner.value);
      ok, fx := true, [];
      if s.Installed? || s.Starting? {
        ok := store.Op(id, StartOp, [], env.start, us, log0, fx);
        fx := OpEffects(us, id, StartOp, [], env.start);
        assert [] + fx == fx;
      }
      ghost var now, fx0 := store.updates, fx;
      if ok {
        CompleteUpdate(env, us, log0, fx);
        fx := fx + Complete(now, id, env.complete);
      } else {
        assert fx0 + [] == fx0;
      }
    }

    /** Dispatch on the stage; the stages after Check need a runner, which Init provides. */
    method ExecuteStage(s: ActionState, env: Env) returns (err: Option<Stages.Error>)
      requires s.CheckState? || s.InitState? || runner.Some?
      modifies this, store
      ensures Ended(old(store.updates), old(store.log), Execute(s, old(View()), old(store.updates), cfg, env), err)
      ensures s.InitState? ==> runner.Some?
      ensures !s.CheckState? && !s.InitState? ==> runner == old(runner)
    {
      hide Check, Init, Fetch, Stop, Install, Start, Replay;
      match s
      case CheckState(opts) =>
        CheckIsQuiet(opts, View(), store.updates, cfg, env);
        NoSteps(store.updates);
        err := ExecuteCheck(opts, env);
      case InitState => err := ExecuteInit(env);
      case FetchState => err := ExecuteFetch(env);
      case StopState => err := ExecuteStop(env);
      case InstallState => err := ExecuteInstall(env);
      case StartState => err := ExecuteStart(env);
    }
  }
}
