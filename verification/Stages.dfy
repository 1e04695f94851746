// What each stage of an update run computes: pkg/state/*.go as functions of the
// update context, the recorded updates and the answers of the environment. The
// methods of UpdateContext.dfy are proved against these functions.

module Stages {
  import opened Options
  import opened Targets
  import opened Runner
  import FreeSpace

  datatype AppStatus = AppStatus(fetched: bool, installed: bool, running: bool)

  /** status.CurrentStatus: the status of each app, by URI. */
  type Status = map<string, AppStatus>

  predicate Healthy(st: Status, uri: string) {
    uri in st && st[uri].fetched && st[uri].installed && st[uri].running
  }

  datatype Mode = NewUpdate | Resume
  datatype UpdateType = VersionUpdate | SyncUpdate

  datatype Storage = Storage(available: nat, required: Option<nat>)

  datatype Error =
    | ErrUpdateLookup | ErrNoUpdateInProgress | ErrInvalidActionForState | ErrMetaUpdateFailed
    | ErrInvalidOngoingUpdate | ErrNewerVersionIsAvailable | ErrTargetNotFound | ErrCheckNoUpdate
    | ErrInitFailed | ErrFetchNoSpace | ErrFetchFailed | ErrStopAppsFailed | ErrInstallFailed
    | ErrCannotStart | ErrStartFailed

  /** The update context. `runner` is the update the context drives, `num` the number of the stage it is at. */
  datatype Ctx = Ctx(
    mode: Mode, kind: UpdateType, from: Target, to: Target, targets: seq<Target>, diff: AppDiff,
    status: Option<Status>, forced: bool, alreadyFetched: bool, usage: Option<Storage>,
    runner: Option<nat>, num: nat)

  const NO_TARGET := Target("", 0, [])

  const FRESH := Ctx(NewUpdate, VersionUpdate, NO_TARGET, NO_TARGET, [], AppDiff([], [], [], [], []),
                     None, false, false, None, None, 1)

  /** The options of a Check stage. */
  datatype CheckOpts = CheckOpts(
    updateTargets: bool, allowNew: bool, force: bool, allowed: seq<Stage>,
    toVersion: int, syncCurrent: bool, maxAttempts: int, requireLatest: bool)

  datatype Config = Config(enabled: Option<seq<string>>, versionLimit: int, block: FreeSpace.Positive)

  datatype Load = Loaded(targets: seq<Target>) | NotExist | LoadFailed

  type FourResults = s: seq<OpResult> | |s| == 4 witness [Refused, Refused, Refused, Refused]

  /** The answers of the environment during one run: reads that may fail, loaded target lists,
      the outcome of every runner call, app statuses and storage usage. */
  datatype Env = Env(
    lookup: bool, repo: bool, cached: Load, reloaded: Load, lastReadable: bool, countReadable: bool,
    parse: map<string, App>, status: Option<Status>, statusAfter: Option<Status>,
    init: OpResult, fetch: OpResult, install: OpResult, start: OpResult, complete: FourResults,
    usageBefore: Option<nat>, usageFetched: Option<nat>, usageAfter: Option<nat>,
    blobs: seq<FreeSpace.Blob>, stop: bool, cancel: bool)

  datatype Out = Out(c: Ctx, fx: seq<Effect>, err: Option<Error>)

  function Id(c: Ctx): nat {
    if c.runner.Some? then c.runner.value else 0
  }

  // Check (check.go).

  function LoadTargets(opts: CheckOpts, env: Env): Option<seq<Target>> {
    if !env.repo || env.cached.LoadFailed? then None
    else if opts.updateTargets then (if env.reloaded.Loaded? then Some(env.reloaded.targets) else None)
    else Some(if env.cached.Loaded? then env.cached.targets else [])
  }

  /** getTargetOutOfUpdate. */
  function TargetOutOfUpdate(u: Update, parse: map<string, App>): Option<Target> {
    var version := VersionOf(u.ref);
    var apps := ParseApps(u.uris, parse);
    if version.Some? && apps.Some? then Some(Target(u.ref, version.value, apps.value)) else None
  }

  /** The target of a recorded update: from the list if it is still there, else from the record. */
  function TargetOf(u: Update, ts: seq<Target>, parse: map<string, App>): (r: Option<Target>)
    ensures r.Some? ==> r.value.id == u.ref
  {
    var t := ById(ts, u.ref);
    if !IsUnknown(t) then Some(t.(apps := KeepUris(t.apps, u.uris))) else TargetOutOfUpdate(u, parse)
  }

  /** getAndSetCurrentTarget: the target of the last successful update, or the unknown one. */
  function FromTarget(us: Updates, ts: seq<Target>, env: Env): Target {
    var last := LastSuccess(us);
    if !env.lastReadable || last.None? then UNKNOWN else
      var t := TargetOf(last.value, ts, env.parse);
      if t.Some? then t.value else UNKNOWN
  }

  function SyncTarget(ts: seq<Target>, from: Target): Target {
    var t := ByVersion(ts, from.version);
    if t.id != UNKNOWN.id then t else from
  }

  datatype Selection = Selection(to: Target, err: Option<Error>)

  /** selectToTarget. */
  function Select(c: Ctx, us: Updates, opts: CheckOpts, cfg: Config, env: Env): Selection {
    if c.mode.Resume? then
      var t := if Id(c) < |us| then TargetOf(us[Id(c)], c.targets, env.parse) else None;
      if t.None? then Selection(c.to, Some(ErrInvalidOngoingUpdate))
      else if opts.toVersion != -1 then
        Selection(t.value, if t.value.version != opts.toVersion then Some(ErrInvalidActionForState) else None)
      else
        Selection(t.value, if opts.requireLatest && Latest(c.targets, cfg.versionLimit).id != t.value.id
                           then Some(ErrNewerVersionIsAvailable) else None)
    else if opts.toVersion != -1 then
      var t := ByVersion(c.targets, opts.toVersion);
      Selection(t, if t.id == UNKNOWN.id then Some(ErrTargetNotFound) else None)
    else
      var t := if opts.syncCurrent then SyncTarget(c.targets, c.from) else Latest(c.targets, cfg.versionLimit);
      if t.id == UNKNOWN.id then Selection(t, Some(ErrTargetNotFound))
      else if opts.maxAttempts > 0 && env.countReadable && CountFailed(us, t.id) >= opts.maxAttempts then
        Selection(SyncTarget(c.targets, c.from), None)
      else Selection(t, None)
  }

  predicate ListChanged(d: AppDiff) {
    d.add != [] || d.remove != [] || d.update != []
  }

  /** Nothing to do: the app lists agree and every app of the target is known to be healthy. */
  predicate InSync(c: Ctx, st: Option<Status>) {
    !ListChanged(c.diff) && st.Some? && forall uri :: uri in Uris(c.to.apps) ==> Healthy(st.value, uri)
  }

  predicate NewSync(c: Ctx) {
    c.kind.SyncUpdate? && c.mode.NewUpdate?
  }

  /** The status is read unless a changed list with nothing to sync has already decided. */
  predicate ReadsStatus(c: Ctx) {
    !ListChanged(c.diff) || c.diff.sync != []
  }

  function Prepared(c: Ctx, cfg: Config): Ctx {
    var to := c.to.(apps := KeepNamed(c.to.apps, cfg.enabled));
    c.(to := to,
       kind := if to.id == c.from.id then SyncUpdate else VersionUpdate,
       diff := Diff(c.from.apps, to.apps))
  }

  function Check(opts: CheckOpts, c: Ctx, us: Updates, cfg: Config, env: Env): Out {
    var c0 := c.(forced := opts.force);
    if !env.lookup then Out(c0.(mode := Resume), [], Some(ErrUpdateLookup))
    else if Current(us).None? && !opts.allowNew then Out(c0.(runner := None), [], Some(ErrNoUpdateInProgress))
    else
      var c1 := c0.(runner := Current(us), mode := if Current(us).Some? then Resume else NewUpdate);
      if opts.allowed != [] && (c1.runner.None? || StageAt(us, Id(c1)) !in opts.allowed) then
        Out(c1, [], Some(ErrInvalidActionForState))
      else
        var ts := LoadTargets(opts, env);
        if ts.None? then Out(c1, [], Some(ErrMetaUpdateFailed)) else
          var c2 := c1.(targets := ts.value, from := FromTarget(us, ts.value, env));
          var sel := Select(c2, us, opts, cfg, env);
          if sel.err.Some? then Out(c2.(to := sel.to), [], sel.err)
          else Decide(opts, Prepared(c2.(to := sel.to), cfg), env)
  }

  /** The end of Check: is there anything to do? */
  function Decide(opts: CheckOpts, c: Ctx, env: Env): Out {
    if opts.force || !NewSync(c) then Out(c, [], None) else
      Out(c.(status := if ReadsStatus(c) then env.status else c.status), [],
          if InSync(c, env.status) then Some(ErrCheckNoUpdate) else None)
  }

  lemma {:induction false} CheckIsQuiet(opts: CheckOpts, c: Ctx, us: Updates, cfg: Config, env: Env)
    ensures Check(opts, c, us, cfg, env).fx == []
  {
    hide Select, LoadTargets, FromTarget, Prepared, InSync;
  }

  // Init (init.go).

  /** An update just created gets the apps of the target; later the runner knows them. */
  function AppsToInit(c: Ctx, s: Stage): seq<string> {
    if s.Created? then Uris(c.to.apps) else []
  }

  function Init(c: Ctx, us: Updates, env: Env): Out {
    var create := if c.runner.None? then [New(c.to.id)] else [];
    var us0 := Replay(us, create);
    var c0 := if c.runner.None? then c.(runner := Some(|us|)) else c;
    var id := Id(c0);
    if StageAt(us0, id) in {Created, Initializing} then
      var apps := AppsToInit(c, StageAt(us0, id));
      var ok := OpSucceeds(us0, id, InitOp, env.init);
      Out(c0,
          create + [Emit(id, c.to.id, InitStarted, None)] + OpEffects(us0, id, InitOp, apps, env.init)
          + [Emit(id, c.to.id, InitCompleted, Some(ok))],
          if ok then None else Some(ErrInitFailed))
    else Out(c0, create, None)
  }

  // Fetch (fetch.go).

  function Required(cfg: Config, env: Env): nat {
    FreeSpace.Uint64(FreeSpace.TotalNeed(env.blobs, cfg.block))
  }

  predicate NoSpace(cfg: Config, env: Env) {
    env.usageBefore.Some? && Required(cfg, env) > env.usageBefore.value
  }

  function WithUsage(c: Ctx, usage: Option<nat>): Ctx {
    if usage.Some? then c.(usage := Some(Storage(usage.value, None))) else c
  }

  function Fetch(c: Ctx, us: Updates, cfg: Config, env: Env): Out {
    var id := Id(c);
    match StageAt(us, id)
    case Created => Out(c, [], Some(ErrInvalidActionForState))
    case Initializing => Out(c, [], Some(ErrInvalidActionForState))
    case Initialized => Download(c, us, cfg, env)
    case Fetching => Download(c, us, cfg, env)
    case _ => Out(c.(alreadyFetched := true), [], None)
  }

  function Download(c: Ctx, us: Updates, cfg: Config, env: Env): Out {
    var id := Id(c);
    var started := Emit(id, c.to.id, DownloadStarted, None);
    var c1 := if env.usageBefore.Some?
              then c.(usage := Some(Storage(env.usageBefore.value, Some(Required(cfg, env))))) else c;
    if NoSpace(cfg, env) then
      Out(c1, [started] + [Emit(id, c.to.id, DownloadCompleted, Some(false))], Some(ErrFetchNoSpace))
    else
      var ok := OpSucceeds(us, id, FetchOp, env.fetch);
      Out(WithUsage(c1, env.usageFetched),
          [started] + OpEffects(us, id, FetchOp, [], env.fetch) + [Emit(id, c.to.id, DownloadCompleted, Some(ok))],
          if ok then None else Some(ErrFetchFailed))
  }

  // Stop (stop.go).

  predicate PastInstall(s: Stage) {
    s in {Installed, Starting, Started, Completing}
  }

  /** The apps of the sync list that are not known to be healthy. */
  function NotHealthy(apps: seq<App>, st: Option<Status>): (r: seq<App>)
    ensures forall a :: a in r <==> a in apps && (st.None? || !Healthy(st.value, a.uri))
  {
    if apps == [] then [] else
      var a := apps[|apps| - 1];
      NotHealthy(apps[..|apps| - 1], st) + (if st.None? || !Healthy(st.value, a.uri) then [a] else [])
  }

  function AppsToStop(c: Ctx): seq<App> {
    if c.kind.VersionUpdate? || c.forced then c.from.apps
    else c.diff.remove + NotHealthy(c.diff.sync, c.status)
  }

  function Stop(c: Ctx, us: Updates, env: Env): Out {
    var s := StageAt(us, Id(c));
    if PastInstall(s) then Out(c, [], None)
    else if !Legal(InstallOp, s) then Out(c, [], Some(ErrInvalidActionForState))
    else StopRunning(c, env)
  }

  function StopRunning(c: Ctx, env: Env): Out {
    var id, apps := Id(c), AppsToStop(c);
    var fx := [Emit(id, c.to.id, InstallationStarted, None)] + (if apps == [] then [] else [StopApps(Uris(apps))]);
    if apps == [] || env.stop then Out(c, fx, None)
    else
      Out(WithStatus(c, env.statusAfter), fx + [Emit(id, c.to.id, InstallationCompleted, Some(false))],
          Some(ErrStopAppsFailed))
  }

  function WithStatus(c: Ctx, st: Option<Status>): Ctx {
    if st.Some? then c.(status := st) else c
  }

  // Install (install.go).

  function Install(c: Ctx, us: Updates, env: Env): Out {
    var id := Id(c);
    if PastInstall(StageAt(us, id)) then Out(c, [], None) else
      var fx := OpEffects(us, id, InstallOp, [], env.install);
      if OpSucceeds(us, id, InstallOp, env.install) then
        Out(c, fx + [Emit(id, c.to.id, InstallationApplied, None)], None)
      else
        Out(WithStatus(c, env.statusAfter), fx + [Emit(id, c.to.id, InstallationCompleted, Some(false))],
            Some(ErrInstallFailed))
  }

  // Start (start.go).

  /** completeUpdate: try again until one attempt succeeds. */
  function Complete(us: Updates, id: nat, rs: seq<OpResult>): seq<Effect>
    decreases |rs|
  {
    if rs == [] then [] else
      var fx := OpEffects(us, id, CompleteOp, [], rs[0]);
      if OpSucceeds(us, id, CompleteOp, rs[0]) then fx else fx + Complete(Replay(us, fx), id, rs[1..])
  }

  lemma {:induction false} CompleteNone(us: Updates, id: nat)
    ensures Complete(us, id, []) == []
  {
  }

  function Start(c: Ctx, us: Updates, env: Env): Out {
    var id := Id(c);
    var s := StageAt(us, id);
    if !PastInstall(s) then Out(c, [], Some(ErrCannotStart)) else
      var starts := Legal(StartOp, s);
      var fx0 := if starts then OpEffects(us, id, StartOp, [], env.start) else [];
      var ok := !starts || OpSucceeds(us, id, StartOp, env.start);
      var fx := fx0 + (if ok then Complete(Replay(us, fx0), id, env.complete) else []);
      Out(WithUsage(WithStatus(c, env.statusAfter), env.usageAfter),
          fx + [Emit(id, c.to.id, InstallationCompleted, Some(ok))],
          if ok then None else Some(ErrStartFailed))
  }

  // The stage loop (update_runner.go) and the actions (pkg/api).

  datatype ActionState = CheckState(opts: CheckOpts) | InitState | FetchState | StopState | InstallState | StartState

  function Execute(s: ActionState, c: Ctx, us: Updates, cfg: Config, env: Env): Out {
    match s
    case CheckState(opts) => Check(opts, c, us, cfg, env)
    case InitState => Init(c, us, env)
    case FetchState => Fetch(c, us, cfg, env)
    case StopState => Stop(c, us, env)
    case InstallState => Install(c, us, env)
    case StartState => Start(c, us, env)
  }

  lemma {:induction false} ExecuteIs(c: Ctx, us: Updates, cfg: Config, env: Env)
    ensures forall opts :: Execute(CheckState(opts), c, us, cfg, env) == Check(opts, c, us, cfg, env)
    ensures Execute(InitState, c, us, cfg, env) == Init(c, us, env)
    ensures Execute(FetchState, c, us, cfg, env) == Fetch(c, us, cfg, env)
    ensures Execute(StopState, c, us, cfg, env) == Stop(c, us, env)
    ensures Execute(InstallState, c, us, cfg, env) == Install(c, us, env)
    ensures Execute(StartState, c, us, cfg, env) == Start(c, us, env)
  {
    hide Check, Init, Fetch, Stop, Install, Start;
  }

  /** Execute the stages in turn, up to the first error. */
  function Run(states: seq<ActionState>, c: Ctx, us: Updates, cfg: Config, env: Env): Out {
    if states == [] then Out(c, [], None) else
      var o := Execute(states[0], c, us, cfg, env);
      if o.err.Some? then o else
        var rest := Run(states[1..], o.c.(num := o.c.num + 1), Replay(us, o.fx), cfg, env);
        Out(rest.c, o.fx + rest.fx, rest.err)
  }

  lemma {:induction false} RunByStages(states: seq<ActionState>, c: Ctx, us: Updates, cfg: Config, env: Env)
    requires states != []
    ensures var o := Execute(states[0], c, us, cfg, env);
            var rest := Run(states[1..], o.c.(num := o.c.num + 1), Replay(us, o.fx), cfg, env);
            Run(states, c, us, cfg, env) == if o.err.Some? then o else Out(rest.c, o.fx + rest.fx, rest.err)
  {
    hide Execute, Replay;
  }

  lemma {:induction false} RunNone(c: Ctx, us: Updates, cfg: Config, env: Env)
    ensures Run([], c, us, cfg, env) == Out(c, [], None)
  {
  }

  datatype UpdateOpts = UpdateOpts(force: bool, syncCurrent: bool, maxAttempts: int, requireLatest: bool)

  datatype Action =
    | UpdateAction(toVersion: int, opts: UpdateOpts)
    | FetchAction(toVersion: int)
    | InstallAction
    | StartAction

  function States(a: Action): seq<ActionState> {
    match a
    case UpdateAction(v, o) =>
      [CheckState(CheckOpts(true, true, o.force, [], v, o.syncCurrent, o.maxAttempts, o.requireLatest)),
       InitState, FetchState, StopState, InstallState, StartState]
    case FetchAction(v) =>
      [CheckState(CheckOpts(false, true, true, [], v, false, 0, false)), InitState, FetchState]
    case InstallAction =>
      [CheckState(CheckOpts(false, false, false, [Fetched, Installing], -1, false, 0, false)),
       InitState, FetchState, StopState, InstallState]
    case StartAction =>
      [CheckState(CheckOpts(false, false, false, [Installed, Starting, Started, Completing], -1, false, 0, false)),
       InitState, FetchState, StopState, InstallState, StartState]
  }

  /** One run of an action, from a fresh context. */
  function Act(a: Action, us: Updates, cfg: Config, env: Env): Out {
    Run(States(a), FRESH, us, cfg, env)
  }
}
