// Polling against a fixed target list: a latest target that always fails to start is
// given up after the allowed attempts, and the daemon settles on the current target.

module Convergence {
  import opened Options
  import opened Targets
  import opened Runner
  import opened Stages
  import opened GoodRuns
  import opened Stepwise
  import opened Decisions
  import opened Daemon

  /** The fixed part of the environment: a target list whose latest entry fails to start, and a listed current
      target. */
  datatype World = World(cfg: Config, env: Env, ts: seq<Target>, current: Target)

  function Bad(w: World): Target {
    Latest(w.ts, w.cfg.versionLimit)
  }

  /** Everything succeeds but the start of the latest target. */
  predicate Steady(w: World) {
    && GoodUntilStart(w.cfg, w.env) && w.env.complete[0] == Ran(Done)
    && w.env.countReadable && w.env.lastReadable && w.env.reloaded == Loaded(w.ts)
    && Bad(w).id != UNKNOWN.id
    && w.current.id != UNKNOWN.id && w.current.id != Bad(w).id && DistinctNames(w.current.apps)
    && ById(w.ts, w.current.id) == w.current && ByVersion(w.ts, w.current.version) == w.current
  }

  /** The target that the next poll may start: that of the update in progress, or the chosen one. */
  function NextRef(w: World, us: Updates): string {
    if Current(us).Some? then us[|us| - 1].ref else Chosen(us, w.cfg, w.env).id
  }

  /** The environment of one poll: the status it reads, and the start of the apps of the target it is for. */
  function EnvAt(w: World, us: Updates, status: Option<Status>): Env {
    w.env.(status := status, start := if NextRef(w, us) == Bad(w).id then Ran(Fatal) else Ran(Done))
  }

  predicate Idle(w: World, us: Updates) {
    Inv(us) && Current(us).None? && LastSuccess(us).Some? && LastSuccess(us).value.ref == w.current.id
  }

  function Failures(w: World, us: Updates): nat {
    CountFailed(us, Bad(w).id)
  }

  function Enabled(w: World): seq<App> {
    KeepNamed(w.current.apps, w.cfg.enabled)
  }

  /** The newest update has completed the enabled apps of the current target. */
  predicate Settled(w: World, us: Updates) {
    us != [] && us[|us| - 1] == Update(w.current.id, Uris(Enabled(w)), Runner.Completed, 5)
  }

  /** Apps that have just been started are reported to be running. */
  predicate Truthful(us: Updates, status: Option<Status>) {
    us != [] && us[|us| - 1].stage.Completed? ==>
      status.Some? && forall uri :: uri in us[|us| - 1].uris ==> Healthy(status.value, uri)
  }

  lemma {:induction false} Adding(us: Updates, u: Update, ref: string)
    ensures Current(us + [u]) == if Terminal(u.stage) then None else Some(|us|)
    ensures LastSuccess(us + [u]) == if u.stage.Completed? then Some(u) else LastSuccess(us)
    ensures CountFailed(us + [u], ref) == CountFailed(us, ref) + if u.stage.Failed? && u.ref == ref then 1 else 0
  {
    assert (us + [u])[..|us + [u]| - 1] == us;
  }

  lemma {:induction false} PollIs(us: Updates, cfg: Config, env: Env)
    ensures AfterCheck(POLL) == AFTER_CHECK
    ensures var check := Check(Opts(POLL), FRESH, us, cfg, env);
            if check.err.Some? then Act(POLL, us, cfg, env) == check && check.fx == []
            else Act(POLL, us, cfg, env) == Run(AFTER_CHECK, check.c.(num := check.c.num + 1), us, cfg, env)
  {
    hide Act, Check, Run;
    StagesAre(-1, POLL.opts);
    ActIs(POLL, us, cfg, env);
  }

  /** What the polls of a steady world choose between. */
  lemma {:induction false} ChoiceIs(w: World, us: Updates, status: Option<Status>)
    requires Steady(w) && Idle(w, us)
    ensures var env := EnvAt(w, us, status);
            && LoadTargets(Opts(POLL), env) == Some(w.ts)
            && FromTarget(us, w.ts, env) == w.current.(apps := KeepUris(w.current.apps, LastSuccess(us).value.uris))
            && Chosen(us, w.cfg, env) == Chosen(us, w.cfg, w.env)
               == (if Failures(w, us) >= MAX_ATTEMPTS then w.current else Bad(w))
            && LatestAt(w.cfg, env) == Bad(w)
  {
    hide Latest, CountFailed, LastSuccess, NoSpace;
  }

  lemma {:induction false} StillGood(w: World, us: Updates, status: Option<Status>)
    requires Steady(w)
    ensures GoodUntilStart(w.cfg, EnvAt(w, us, status)) && EnvAt(w, us, status).complete[0] == Ran(Done)
  {
    hide Chosen, Latest;
    assert NoSpace(w.cfg, EnvAt(w, us, status)) == NoSpace(w.cfg, w.env);
  }

  /** Below the limit a poll tries the latest target, fails, and asks for the next poll at once. */
  lemma {:induction false} FailingPoll(w: World, us: Updates, status: Option<Status>)
    requires Steady(w) && Idle(w, us) && Failures(w, us) < MAX_ATTEMPTS
    ensures var it := Iterate(us, w.cfg, EnvAt(w, us, status));
            var us' := Replay(us, it.fx);
            && it.err == Some(ErrStartFailed) && it.nowait
            && Idle(w, us') && Failures(w, us') == Failures(w, us) + 1
            && us'[|us'| - 1].stage.Failed?
  {
    hide Act, Check, Run, Replay, FromTarget, LoadTargets, CountFailed, LastSuccess, Latest, Chosen, NoSpace, Inv;
    var env := EnvAt(w, us, status);
    ChoiceIs(w, us, status);
    StillGood(w, us, status);
    PollIs(us, w.cfg, env);
    PollProceeds(us, w.cfg, env);
    PollSelects(us, w.cfg, env);
    CheckDecides(Opts(POLL), FRESH, us, w.cfg, env);
    var c0 := Check(Opts(POLL), FRESH, us, w.cfg, env).c;
    StartFails(c0.(num := c0.num + 1), us, w.cfg, env);
    var u := Update(Bad(w).id, Uris(c0.to.apps), Failed, 3);
    AddKeepsInv(us, u);
    Adding(us, u, Bad(w).id);
  }

  /** At the limit a poll synchronizes the current target, once or not at all. */
  lemma {:induction false} SyncPoll(w: World, us: Updates, status: Option<Status>)
    requires Steady(w) && Idle(w, us) && Failures(w, us) >= MAX_ATTEMPTS
    ensures var env := EnvAt(w, us, status);
            var it := Iterate(us, w.cfg, env);
            var us' := Replay(us, it.fx);
            var o := Check(Opts(POLL), FRESH, us, w.cfg, env);
            && !it.nowait && Idle(w, us') && Failures(w, us') == Failures(w, us)
            && (if it.err == Some(ErrCheckNoUpdate) then it.fx == [] && us' == us
                else it.err.None? && it.fx != [] && Settled(w, us'))
            && (it.err == Some(ErrCheckNoUpdate) <==>
                  InSync(o.c, status) && o.c.to.apps == Enabled(w)
                  && o.c.diff == Diff(KeepUris(w.current.apps, LastSuccess(us).value.uris), Enabled(w)))
  {
    hide Act, Check, Run, Replay, FromTarget, LoadTargets, CountFailed, LastSuccess, Latest, Chosen, NoSpace, Inv,
      InSync, Diff;
    var env := EnvAt(w, us, status);
    ChoiceIs(w, us, status);
    StillGood(w, us, status);
    PollIs(us, w.cfg, env);
    PollProceeds(us, w.cfg, env);
    PollSelects(us, w.cfg, env);
    CheckDecides(Opts(POLL), FRESH, us, w.cfg, env);
    NoSteps(us);
    var o := Check(Opts(POLL), FRESH, us, w.cfg, env);
    if o.err.None? {
      NewCompletes(o.c.(num := o.c.num + 1), us, w.cfg, env);
      var u := Update(w.current.id, Uris(Enabled(w)), Runner.Completed, 5);
      AddKeepsInv(us, u);
      Adding(us, u, Bad(w).id);
    }
  }

  // When the current target stays in sync.

  /** No disabled app of the current target has the URI of an enabled one. */
  predicate UrisTellAppsApart(w: World) {
    forall a, b :: a in w.current.apps && b in Enabled(w) && a.uri == b.uri ==> a in Enabled(w)
  }

  lemma {:induction false} TailDistinct(apps: seq<App>)
    requires DistinctNames(apps) && apps != []
    ensures DistinctNames(apps[1..]) && forall a :: a in apps[1..] ==> a.name != apps[0].name
  {
    var rest := apps[1..];
    forall a | a in rest ensures a.name != apps[0].name {
      var i :| 0 <= i < |rest| && rest[i] == a;
      assert apps[i + 1] == a;
    }
  }

  lemma {:induction false} NamedDistinct(apps: seq<App>, names: Option<seq<string>>)
    requires DistinctNames(apps)
    ensures DistinctNames(KeepNamed(apps, names))
  {
    hide DistinctNames;
    if apps != [] && names.Some? {
      TailDistinct(apps);
      NamedDistinct(apps[1..], names);
      ConsDistinct(apps[0], KeepNamed(apps[1..], names));
    }
  }

  lemma {:induction false} UrisDistinct(apps: seq<App>, uris: seq<string>)
    requires DistinctNames(apps)
    ensures DistinctNames(KeepUris(apps, uris))
  {
    if apps != [] {
      TailDistinct(apps);
      hide DistinctNames;
      UrisDistinct(apps[1..], uris);
      ConsDistinct(apps[0], KeepUris(apps[1..], uris));
    }
  }

  lemma {:induction false} ConsDistinct(a: App, apps: seq<App>)
    requires DistinctNames(apps) && forall b :: b in apps ==> b.name != a.name
    ensures DistinctNames([a] + apps) && [] + apps == apps
  {
    var l := [a] + apps;
    assert l[1..] == apps;
    assert forall j :: 0 < j < |l| ==> l[j] == apps[j - 1];
  }

  lemma {:induction false} InSyncAgainIff(w: World)
    requires DistinctNames(w.current.apps)
    ensures !ListChanged(Diff(KeepUris(w.current.apps, Uris(Enabled(w))), Enabled(w))) <==> UrisTellAppsApart(w)
  {
    hide Diff, ListChanged;
    var uris := Uris(Enabled(w));
    NamedDistinct(w.current.apps, w.cfg.enabled);
    UrisDistinct(w.current.apps, uris);
    var from := KeepUris(w.current.apps, uris);
    ListsAgreeIff(from, Enabled(w));
    forall a ensures LastOfName(from, a) <==> a in from {
      DistinctCount(from, a);
    }
    hide DistinctNames, LastOfName;
    SameAppsIff(w.current.apps, Enabled(w));
  }

  lemma {:induction false} SameAppsIff(apps: seq<App>, to: seq<App>)
    requires forall a :: a in to ==> a in apps
    ensures (forall a :: a in KeepUris(apps, Uris(to)) <==> a in to)
            <==> forall a, b :: a in apps && b in to && a.uri == b.uri ==> a in to
  {
    forall a | a in apps ensures a in KeepUris(apps, Uris(to)) <==> exists b :: b in to && b.uri == a.uri {
      UrisOf(to, a.uri);
    }
    hide Uris;
  }

  /** If some record of apps agrees with the enabled ones, the URIs tell the apps apart. */
  lemma {:induction false} AgreementTellsApart(w: World, uris: seq<string>)
    requires DistinctNames(w.current.apps) && !ListChanged(Diff(KeepUris(w.current.apps, uris), Enabled(w)))
    ensures UrisTellAppsApart(w)
  {
    hide Diff, ListChanged;
    var from := KeepUris(w.current.apps, uris);
    UrisDistinct(w.current.apps, uris);
    ListsAgreeIff(from, Enabled(w));
    forall a, b | a in w.current.apps && b in Enabled(w) && a.uri == b.uri ensures a in Enabled(w) {
      DistinctCount(from, a);
      DistinctCount(from, b);
    }
  }

  /** If they do not, every poll at the limit synchronizes, whatever has been recorded and whatever is reported. */
  lemma {:induction false} SyncsAgain(w: World, us: Updates, status: Option<Status>)
    requires Steady(w) && Idle(w, us) && Failures(w, us) >= MAX_ATTEMPTS && !UrisTellAppsApart(w)
    ensures Synchronizes(Iterate(us, w.cfg, EnvAt(w, us, status)))
  {
    hide Iterate, Replay, Check, Latest, NoSpace, CountFailed, Inv, Diff, Chosen, ListChanged, LastSuccess,
      UrisTellAppsApart, EnvAt;
    SyncPoll(w, us, status);
    if Iterate(us, w.cfg, EnvAt(w, us, status)).err == Some(ErrCheckNoUpdate) {
      AgreementTellsApart(w, LastSuccess(us).value.uris);
    }
  }

  /** Once settled, a poll finds nothing to do exactly if no disabled app shares its URI with an enabled one. */
  lemma {:induction false} SettledPollIff(w: World, us: Updates, status: Option<Status>)
    requires Steady(w) && Idle(w, us) && Failures(w, us) >= MAX_ATTEMPTS && Settled(w, us) && Truthful(us, status)
    ensures Iterate(us, w.cfg, EnvAt(w, us, status)).err == Some(ErrCheckNoUpdate) <==> UrisTellAppsApart(w)
  {
    hide Iterate, Replay, Check, Latest, NoSpace, CountFailed, Inv, Diff, Chosen;
    SyncPoll(w, us, status);
    InSyncAgainIff(w);
    assert LastSuccess(us).value.uris == Uris(Enabled(w));
    hide LastSuccess;
    var env := EnvAt(w, us, status);
    var o := Check(Opts(POLL), FRESH, us, w.cfg, env);
    ChoiceIs(w, us, status);
    PollProceeds(us, w.cfg, env);
    PollSelects(us, w.cfg, env);
    CheckDecides(Opts(POLL), FRESH, us, w.cfg, env);
  }

  // Whole runs of the daemon.

  /** The polls of the daemon, one for each status it reads. */
  function Polls(w: World, us: Updates, statuses: seq<Option<Status>>): seq<Iteration>
    decreases |statuses|
  {
    if statuses == [] then [] else
      var it := Iterate(us, w.cfg, EnvAt(w, us, statuses[0]));
      [it] + Polls(w, Replay(us, it.fx), statuses[1..])
  }

  predicate AlwaysTruthful(w: World, us: Updates, statuses: seq<Option<Status>>)
    decreases |statuses|
  {
    statuses == [] ||
    (Truthful(us, statuses[0])
     && AlwaysTruthful(w, Replay(us, Iterate(us, w.cfg, EnvAt(w, us, statuses[0])).fx), statuses[1..]))
  }

  predicate FindsNothing(it: Iteration) {
    it.err == Some(ErrCheckNoUpdate) && it.fx == [] && !it.nowait
  }

  predicate FailsToStart(it: Iteration) {
    it.err == Some(ErrStartFailed) && it.nowait
  }

  predicate Synchronizes(it: Iteration) {
    it.err.None? && it.fx != [] && !it.nowait
  }

  /** Settled for good. */
  lemma {:induction false} StaysSettled(w: World, us: Updates, statuses: seq<Option<Status>>)
    requires Steady(w) && Idle(w, us) && Failures(w, us) >= MAX_ATTEMPTS && Settled(w, us)
    requires UrisTellAppsApart(w)
    ensures AlwaysTruthful(w, us, statuses) ==>
              forall i :: 0 <= i < |Polls(w, us, statuses)| ==> FindsNothing(Polls(w, us, statuses)[i])
    decreases |statuses|
  {
    hide Iterate, Replay, Steady, Idle, Settled, EnvAt, UrisTellAppsApart, Truthful, Failures;
    if statuses != [] && AlwaysTruthful(w, us, statuses) {
      SyncPoll(w, us, statuses[0]);
      SettledPollIff(w, us, statuses[0]);
      StaysSettled(w, us, statuses[1..]);
    }
  }

  /** After the attempts: nothing to do, but for at most one synchronization. */
  predicate AtMostOneSync(its: seq<Iteration>) {
    && (forall i :: 0 <= i < |its| ==> FindsNothing(its[i]) || Synchronizes(its[i]))
    && (forall i, j :: 0 <= i < j < |its| && Synchronizes(its[i]) ==> FindsNothing(its[j]))
  }

  lemma {:induction false} SyncsOnce(w: World, us: Updates, statuses: seq<Option<Status>>)
    requires Steady(w) && Idle(w, us) && Failures(w, us) >= MAX_ATTEMPTS
    requires UrisTellAppsApart(w)
    ensures AlwaysTruthful(w, us, statuses) ==> AtMostOneSync(Polls(w, us, statuses))
    decreases |statuses|
  {
    hide Iterate, Replay, Steady, Idle, Settled, EnvAt, UrisTellAppsApart, Truthful, Failures;
    if statuses != [] && AlwaysTruthful(w, us, statuses) {
      var it := Iterate(us, w.cfg, EnvAt(w, us, statuses[0]));
      SyncPoll(w, us, statuses[0]);
      var us' := Replay(us, it.fx);
      if FindsNothing(it) {
        SyncsOnce(w, us', statuses[1..]);
      } else {
        StaysSettled(w, us', statuses[1..]);
      }
    }
  }

  /** How often the latest target may still fail. */
  function TriesLeft(w: World, us: Updates): nat {
    if Failures(w, us) >= MAX_ATTEMPTS then 0 else MAX_ATTEMPTS - Failures(w, us)
  }

  /** Convergence: from nothing in progress and k failures of the latest target, the daemon makes exactly as many
      failing runs as the limit leaves, without waiting, then at most one synchronization, and finds nothing to do
      in every other poll. */
  lemma {:induction false} Converges(w: World, us: Updates, statuses: seq<Option<Status>>)
    requires Steady(w) && Idle(w, us) && UrisTellAppsApart(w)
    ensures AlwaysTruthful(w, us, statuses) ==>
            var its := Polls(w, us, statuses);
            var tries := TriesLeft(w, us);
            && |its| == |statuses|
            && (forall i :: 0 <= i < |its| && i < tries ==> FailsToStart(its[i]))
            && (tries <= |its| ==> AtMostOneSync(its[tries..]))
    decreases |statuses|
  {
    hide Iterate, Replay, Steady, Idle, Settled, EnvAt, UrisTellAppsApart, Truthful, Failures, FailsToStart,
      AtMostOneSync;
    PollsCount(w, us, statuses);
    var its := Polls(w, us, statuses);
    if AlwaysTruthful(w, us, statuses) {
      if Failures(w, us) >= MAX_ATTEMPTS {
        SyncsOnce(w, us, statuses);
        assert its[0..] == its;
      } else if statuses != [] {
        FailsFirst(w, us, statuses[0]);
        var us' := Replay(us, its[0].fx);
        Converges(w, us', statuses[1..]);
        var tries := MAX_ATTEMPTS - Failures(w, us);
        if tries <= |its| { assert its[tries..] == its[1..][tries - 1..]; }
      }
    }
  }

  /** Without that condition the daemon never settles: after the failing runs every poll synchronizes, whatever
      statuses it reads. */
  lemma {:induction false} NeverSettles(w: World, us: Updates, statuses: seq<Option<Status>>)
    requires Steady(w) && Idle(w, us) && !UrisTellAppsApart(w)
    ensures var its := Polls(w, us, statuses);
            && |its| == |statuses|
            && (forall i :: 0 <= i < |its| ==>
                  if i < TriesLeft(w, us) then FailsToStart(its[i]) else Synchronizes(its[i]))
    decreases |statuses|
  {
    hide Iterate, Replay, Steady, Idle, Settled, EnvAt, UrisTellAppsApart, Failures, FailsToStart, Synchronizes;
    if statuses != [] {
      var it := Iterate(us, w.cfg, EnvAt(w, us, statuses[0]));
      if Failures(w, us) >= MAX_ATTEMPTS {
        SyncsAgain(w, us, statuses[0]);
        SyncPoll(w, us, statuses[0]);
      } else {
        FailsFirst(w, us, statuses[0]);
      }
      NeverSettles(w, Replay(us, it.fx), statuses[1..]);
    }
  }

  /** So the daemon settles, in any run that is long enough to tell, if and only if no disabled app of the current
      target has the URI of an enabled one. */
  lemma {:induction false} ConvergesIff(w: World, us: Updates, statuses: seq<Option<Status>>)
    requires Steady(w) && Idle(w, us) && |statuses| >= TriesLeft(w, us) + 2
    ensures AlwaysTruthful(w, us, statuses) ==>
              |Polls(w, us, statuses)| == |statuses|
              && (AtMostOneSync(Polls(w, us, statuses)[TriesLeft(w, us)..]) <==> UrisTellAppsApart(w))
  {
    hide Iterate, Replay, Steady, Idle, Settled, EnvAt, UrisTellAppsApart, Truthful, Failures, FailsToStart, Polls;
    PollsCount(w, us, statuses);
    var its, tries := Polls(w, us, statuses), TriesLeft(w, us);
    if UrisTellAppsApart(w) {
      Converges(w, us, statuses);
    } else {
      NeverSettles(w, us, statuses);
      var rest := its[tries..];
      assert rest[0] == its[tries] && rest[1] == its[tries + 1];
      assert Synchronizes(rest[0]) && !FindsNothing(rest[1]);
    }
  }

  lemma {:induction false} PollsCount(w: World, us: Updates, statuses: seq<Option<Status>>)
    ensures |Polls(w, us, statuses)| == |statuses|
    decreases |statuses|
  {
    hide Iterate, EnvAt, Replay;
    if statuses != [] { PollsCount(w, Replay(us, Iterate(us, w.cfg, EnvAt(w, us, statuses[0])).fx), statuses[1..]); }
  }

  lemma {:induction false} FailsFirst(w: World, us: Updates, status: Option<Status>)
    requires Steady(w) && Idle(w, us) && Failures(w, us) < MAX_ATTEMPTS
    ensures var it := Iterate(us, w.cfg, EnvAt(w, us, status));
            FailsToStart(it) && Idle(w, Replay(us, it.fx)) && Failures(w, Replay(us, it.fx)) == Failures(w, us) + 1
  {
    hide Iterate, Replay, Steady, Idle, EnvAt, Failures;
    FailingPoll(w, us, status);
  }

  // From an update in progress.

  lemma {:induction false} Replacing(us: Updates, u: Update, ref: string)
    requires Current(us).Some? && Terminal(u.stage)
    ensures var us' := us[|us| - 1 := u];
            && Current(us').None?
            && LastSuccess(us') == (if u.stage.Completed? then Some(u) else LastSuccess(us))
            && CountFailed(us', ref) == CountFailed(us, ref) + if u.stage.Failed? && u.ref == ref then 1 else 0
  {
    hide LastSuccess, CountFailed;
    var before, last := us[..|us| - 1], us[|us| - 1];
    assert us == before + [last] && us[|us| - 1 := u] == before + [u];
    Adding(before, last, ref);
    Adding(before, u, ref);
  }

  predicate Resolves(w: World, us: Updates)
    requires us != []
  {
    TargetOf(us[|us| - 1], w.ts, w.env.parse).Some?
  }

  /** What a poll does with an update in progress: nothing if its target cannot be resolved; cancel it if it is not for
      the latest target; else complete it if its apps have been started, and fail to start them if not. */
  lemma {:induction false} FirstPoll(w: World, us: Updates, status: Option<Status>)
    requires Steady(w) && w.env.cancel && Inv(us) && Current(us).Some?
    ensures var it, last := Iterate(us, w.cfg, EnvAt(w, us, status)), |us| - 1;
            var us', u := Replay(us, it.fx), us[|us| - 1];
            if !Resolves(w, us) then it == Iteration([], Some(ErrInvalidOngoingUpdate), false)
            else if u.ref != Bad(w).id then
              && it.err == Some(ErrNewerVersionIsAvailable) && it.nowait
              && us' == us[last := u.(stage := Canceled)]
            else if Legal(CompleteOp, u.stage) then
              && it.err.None? && !it.nowait
              && us' == us[last := u.(stage := Runner.Completed, done := 5)]
            else
              && it.err == Some(ErrStartFailed) && it.nowait
              && us' == us[last := Update(u.ref, u.uris, Failed, 3)]
  {
    hide Act, Run, Replay, TargetOf, Latest, Inv, NoSpace, CanResume, ResumedContext;
    var env := EnvAt(w, us, status);
    StillGood(w, us, status);
    PollCancelsIff(us, w.cfg, env);
    StandstillPoll(us, w.cfg, env);
    if Resolves(w, us) && us[|us| - 1].ref == Bad(w).id {
      assert CanResume(us, w.cfg, env, POLL.opts) by { ResumesLatest(w, us, status); }
      ResumeRuns(us, w.cfg, env, POLL.opts);
      var c := ResumedContext(us, w.cfg, env, POLL.opts);
      if Legal(CompleteOp, us[|us| - 1].stage) {
        ResumedCompletes(c, us, w.cfg, env);
      } else {
        ResumedStartFails(c, us, w.cfg, env);
      }
    }
  }

  lemma {:induction false} ResumesLatest(w: World, us: Updates, status: Option<Status>)
    requires Steady(w) && Current(us).Some? && Resolves(w, us) && us[|us| - 1].ref == Bad(w).id
    ensures CanResume(us, w.cfg, EnvAt(w, us, status), POLL.opts)
  {
    hide TargetOf, Latest, NoSpace;
  }

  /** An update in progress that the daemon gets rid of in one poll: its target resolves, and its apps have not been
      started, or are not those of the latest target. */
  predicate Stale(w: World, us: Updates) {
    && Inv(us) && Current(us).Some? && LastSuccess(us).Some? && LastSuccess(us).value.ref == w.current.id
    && Resolves(w, us) && (us[|us| - 1].ref == Bad(w).id ==> !Legal(CompleteOp, us[|us| - 1].stage))
  }

  /** Convergence from an update in progress: one poll cancels it, or fails it and counts that, without waiting, and
      the daemon goes on from nothing in progress. */
  lemma {:induction false} ConvergesFromProgress(w: World, us: Updates, statuses: seq<Option<Status>>)
    requires Steady(w) && w.env.cancel && Stale(w, us) && statuses != []
    ensures var its := Polls(w, us, statuses);
            var us' := Replay(us, Iterate(us, w.cfg, EnvAt(w, us, statuses[0])).fx);
            && its == [Iterate(us, w.cfg, EnvAt(w, us, statuses[0]))] + Polls(w, us', statuses[1..])
            && its[0].nowait && Idle(w, us')
            && Failures(w, us') == Failures(w, us) + (if us[|us| - 1].ref == Bad(w).id then 1 else 0)
            && (UrisTellAppsApart(w) && AlwaysTruthful(w, us, statuses) ==>
                  && (forall i :: 1 <= i < |its| && i <= TriesLeft(w, us') ==> FailsToStart(its[i]))
                  && (TriesLeft(w, us') < |its| ==> AtMostOneSync(its[TriesLeft(w, us') + 1..])))
  {
    hide Iterate, Replay, Steady, EnvAt, Truthful, FailsToStart, AtMostOneSync, UrisTellAppsApart, CountFailed,
      LastSuccess, Inv, Resolves, Bad;
    var it := Iterate(us, w.cfg, EnvAt(w, us, statuses[0]));
    var us' := Replay(us, it.fx);
    FirstPoll(w, us, statuses[0]);
    IterationIsWellPlaced(us, w.cfg, EnvAt(w, us, statuses[0]), "");
    ReplayKeepsInv(us, it.fx);
    Replacing(us, us'[|us| - 1], Bad(w).id);
    assert Idle(w, us');
    if UrisTellAppsApart(w) { Converges(w, us', statuses[1..]); }
    PollsCount(w, us', statuses[1..]);
    var its, tries := Polls(w, us, statuses), TriesLeft(w, us');
    assert its[1..] == Polls(w, us', statuses[1..]);
    if tries < |its| { assert its[tries + 1..] == its[1..][tries..]; }
  }
}
