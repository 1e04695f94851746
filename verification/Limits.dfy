// Where the daemon's limit on failed attempts does not help, and inputs on which the
// failing properties fail.

module Limits {
  import opened Options
  import opened Targets
  import opened Runner
  import opened Stages
  import opened GoodRuns
  import opened Stepwise
  import opened Decisions
  import opened Daemon
  import opened Convergence
  import FreeSpace

  /** The latest target has used its attempts up, and whatever else is started fails as well. */
  predicate AtLimit(us: Updates, cfg: Config, env: Env) {
    && Inv(us) && Current(us).None? && GoodUntilStart(cfg, env) && env.start == Ran(Fatal)
    && env.countReadable && env.reloaded.Loaded?
    && LatestAt(cfg, env).id != UNKNOWN.id && CountFailed(us, LatestAt(cfg, env).id) >= MAX_ATTEMPTS
  }

  /** The target to fall back to has to be installed: it is not the current one, or that is not in sync. */
  predicate FallbackFails(us: Updates, cfg: Config, env: Env) {
    AtLimit(us, cfg, env) && !UpToDate(Fallback(us, env), us, cfg, env)
  }

  lemma {:induction false} FallbackPoll(us: Updates, cfg: Config, env: Env)
    requires FallbackFails(us, cfg, env)
    ensures var it := Iterate(us, cfg, env);
            var us' := Replay(us, it.fx);
            var ref := Fallback(us, env).id;
            && FailsToStart(it)
            && FallbackFails(us', cfg, env) && Fallback(us', env) == Fallback(us, env)
            && CountFailed(us', ref) == CountFailed(us, ref) + 1
  {
    hide Act, Check, Run, Replay, CountFailed, LastSuccess, Latest, Chosen, NoSpace, Inv, TargetOf, ListChanged, Diff;
    var ref := Fallback(us, env).id;
    ChosenAtLimit(us, cfg, env);
    PollIs(us, cfg, env);
    PollPassesIff(us, cfg, env);
    PollSelects(us, cfg, env);
    CheckDecides(Opts(POLL), FRESH, us, cfg, env);
    var c0 := Check(Opts(POLL), FRESH, us, cfg, env).c;
    StartFails(c0.(num := c0.num + 1), us, cfg, env);
    var u := Update(ref, Uris(c0.to.apps), Failed, 3);
    AddKeepsInv(us, u);
    Adding(us, u, ref);
    Adding(us, u, LatestAt(cfg, env).id);
  }

  lemma {:induction false} ChosenAtLimit(us: Updates, cfg: Config, env: Env)
    requires env.countReadable && CountFailed(us, LatestAt(cfg, env).id) >= MAX_ATTEMPTS
    ensures Chosen(us, cfg, env) == Fallback(us, env)
  {
  }

  function Repeat(us: Updates, cfg: Config, env: Env, n: nat): Updates
    decreases n
  {
    if n == 0 then us else Repeat(Replay(us, Iterate(us, cfg, env).fx), cfg, env, n - 1)
  }

  /** The attempt limit does not reach the fallback target: if it has to be installed and fails to start, it fails once
      more in every poll, and the next poll follows without waiting. */
  lemma {:induction false} FallbackFailsForever(us: Updates, cfg: Config, env: Env, n: nat)
    requires FallbackFails(us, cfg, env)
    ensures var us', ref := Repeat(us, cfg, env, n), Fallback(us, env).id;
            && CountFailed(us', ref) == CountFailed(us, ref) + n
            && FailsToStart(Iterate(us', cfg, env))
    decreases n
  {
    hide Iterate, Replay, FallbackFails, Fallback, CountFailed, FailsToStart;
    FallbackPoll(us, cfg, env);
    if n > 0 { FallbackFailsForever(Replay(us, Iterate(us, cfg, env).fx), cfg, env, n - 1); }
  }

  /** At the limit, with starts that fail, every poll fails without waiting, however many there are, if and only if
      the target to fall back to is not the current one in sync. */
  lemma {:induction false} FallbackFailsForeverIff(us: Updates, cfg: Config, env: Env)
    requires AtLimit(us, cfg, env)
    ensures (forall n: nat :: FailsToStart(Iterate(Repeat(us, cfg, env, n), cfg, env)))
            <==> !UpToDate(Fallback(us, env), us, cfg, env)
  {
    hide Iterate, Replay, Fallback, CountFailed, FailsToStart, UpToDate, LatestAt, GoodUntilStart, Inv;
    if UpToDate(Fallback(us, env), us, cfg, env) {
      UpToDatePoll(us, cfg, env);
      assert Repeat(us, cfg, env, 0) == us;
    } else {
      forall n: nat ensures FailsToStart(Iterate(Repeat(us, cfg, env, n), cfg, env)) {
        FallbackFailsForever(us, cfg, env, n);
      }
    }
  }

  lemma {:induction false} UpToDatePoll(us: Updates, cfg: Config, env: Env)
    requires AtLimit(us, cfg, env) && UpToDate(Fallback(us, env), us, cfg, env)
    ensures !FailsToStart(Iterate(us, cfg, env))
  {
    hide Act, Check, Run, Replay, CountFailed, UpToDate, Fallback, Chosen, LatestAt, Inv, NoSpace;
    ChosenAtLimit(us, cfg, env);
    PollIs(us, cfg, env);
    PollPassesIff(us, cfg, env);
    PollProceeds(us, cfg, env);
  }

  // The unknown target.

  /** A poll goes on with the unknown target exactly if the latest target has used its attempts up, there is nothing to
      fall back to, and this nothing is not known to be in sync. */
  lemma {:induction false} UnknownIsInstalledIff(us: Updates, cfg: Config, env: Env)
    requires Current(us).None?
    ensures var o := Check(Opts(POLL), FRESH, us, cfg, env);
            o.err.None? && o.c.to.id == UNKNOWN.id <==>
              && env.lookup && env.countReadable && LoadTargets(Opts(POLL), env).Some?
              && LatestAt(cfg, env).id != UNKNOWN.id && CountFailed(us, LatestAt(cfg, env).id) >= MAX_ATTEMPTS
              && Fallback(us, env).id == UNKNOWN.id && !UpToDate(Fallback(us, env), us, cfg, env)
  {
    hide Check, LoadTargets, CountFailed, LatestAt, Fallback, UpToDate, FromTarget;
    PollPassesIff(us, cfg, env);
    PollSelects(us, cfg, env);
  }

  /** It is known to be in sync exactly if the status can be read: it has no apps. */
  lemma {:induction false} UnknownIsUpToDateIff(us: Updates, cfg: Config, env: Env)
    requires LoadTargets(Opts(POLL), env).Some? && Fallback(us, env) == UNKNOWN
    ensures UpToDate(UNKNOWN, us, cfg, env) <==> env.status.Some?
  {
    hide LoadTargets, FromTarget;
    NothingDiffers(cfg);
  }

  lemma {:induction false} NothingDiffers(cfg: Config)
    ensures Diff([], []) == AppDiff([], [], [], [], []) && KeepNamed([], cfg.enabled) == []
  {
  }

  /** There is no current target exactly if the last successful update cannot be read, does not exist, or cannot be
      resolved from the list or from its record. */
  lemma {:induction false} NoCurrentTargetIff(us: Updates, ts: seq<Target>, env: Env)
    ensures FromTarget(us, ts, env) == UNKNOWN
            <==> !env.lastReadable || LastSuccess(us).None? || TargetOf(LastSuccess(us).value, ts, env.parse).None?
  {
    hide LastSuccess, ParseApps, LastDash;
  }

  /** Then there is nothing to fall back to, unless a listed target has the version that stands for none. */
  lemma {:induction false} NothingToFallBackTo(us: Updates, env: Env)
    requires LoadTargets(Opts(POLL), env).Some?
    requires FromTarget(us, LoadTargets(Opts(POLL), env).value, env) == UNKNOWN
    requires ByVersion(LoadTargets(Opts(POLL), env).value, UNKNOWN.version) == UNKNOWN
    ensures Fallback(us, env) == UNKNOWN
  {
    hide LoadTargets, FromTarget;
  }

  /** The situation in which it happens: all goes well, but no current target is known, and no status. */
  predicate Lost(us: Updates, cfg: Config, env: Env) {
    && Inv(us) && Current(us).None? && Good(cfg, env) && env.countReadable && env.status.None? && env.reloaded.Loaded?
    && LatestAt(cfg, env).id != UNKNOWN.id && CountFailed(us, LatestAt(cfg, env).id) >= MAX_ATTEMPTS
    && Fallback(us, env) == UNKNOWN
  }

  const DONE_UNKNOWN := Update(UNKNOWN.id, [], Runner.Completed, 5)

  lemma {:induction false} LostPoll(us: Updates, cfg: Config, env: Env)
    requires Lost(us, cfg, env)
    ensures var it := Iterate(us, cfg, env);
            it.err.None? && Replay(us, it.fx) == us + [DONE_UNKNOWN]
  {
    hide Act, Check, Run, Replay, CountFailed, Fallback, LatestAt, Inv, Good, UpToDate;
    assert env.lookup && LoadTargets(Opts(POLL), env).Some? by { GoodLoads(cfg, env); }
    ChosenAtLimit(us, cfg, env);
    UnknownIsUpToDateIff(us, cfg, env);
    PollIs(us, cfg, env);
    PollPassesIff(us, cfg, env);
    PollSelects(us, cfg, env);
    CheckDecides(Opts(POLL), FRESH, us, cfg, env);
    NothingDiffers(cfg);
    var c0 := Check(Opts(POLL), FRESH, us, cfg, env).c;
    NewCompletes(c0.(num := c0.num + 1), us, cfg, env);
  }

  lemma {:induction false} GoodLoads(cfg: Config, env: Env)
    requires Good(cfg, env) && env.reloaded.Loaded?
    ensures env.lookup && LoadTargets(Opts(POLL), env) == Some(env.reloaded.targets)
  {
  }

  /** Once the unknown target is the last one completed, no current target is known any more, whatever is listed and
      readable later, unless a target of that very ID is listed. */
  lemma {:induction false} UnknownIsRemembered(us: Updates, ts: seq<Target>, env: Env)
    requires IsUnknown(ById(ts, UNKNOWN.id))
    ensures FromTarget(us + [DONE_UNKNOWN], ts, env) == UNKNOWN
  {
    NoDashNoVersion(UNKNOWN.id);
  }

  function Unknowns(n: nat): seq<Update> {
    if n == 0 then [] else [DONE_UNKNOWN] + Unknowns(n - 1)
  }

  /** It goes on: every further poll that reads no status completes the unknown target once more. */
  lemma {:induction false} LostForever(us: Updates, cfg: Config, env: Env, n: nat)
    requires Lost(us, cfg, env) && IsUnknown(ById(env.reloaded.targets, UNKNOWN.id))
    requires ByVersion(env.reloaded.targets, UNKNOWN.version) == UNKNOWN
    ensures Repeat(us, cfg, env, n) == us + Unknowns(n)
    decreases n
  {
    hide Iterate, Replay, CountFailed, LatestAt, Inv, Good, LastSuccess;
    if n == 0 {
      assert us + [] == us;
    } else {
      var us' := us + [DONE_UNKNOWN];
      LostPoll(us, cfg, env);
      GoodLoads(cfg, env);
      AddKeepsInv(us, DONE_UNKNOWN);
      Adding(us, DONE_UNKNOWN, LatestAt(cfg, env).id);
      UnknownIsRemembered(us, env.reloaded.targets, env);
      NothingToFallBackTo(us', env);
      LostForever(us', cfg, env, n - 1);
      assert us + ([DONE_UNKNOWN] + Unknowns(n - 1)) == us' + Unknowns(n - 1);
    }
  }

  // An update in progress that cannot be resolved.

  predicate GivesUp(it: Iteration) {
    it == Iteration([], Some(ErrInvalidOngoingUpdate), false)
  }

  /** The daemon stands still, for good, if and only if the target of the update in progress is neither listed nor can
      be rebuilt from its record. */
  lemma {:induction false} StandsStillIff(us: Updates, cfg: Config, env: Env)
    ensures (forall n: nat :: GivesUp(Iterate(Repeat(us, cfg, env, n), cfg, env))) <==> CannotResolve(us, env)
    ensures CannotResolve(us, env) ==> forall n: nat :: Repeat(us, cfg, env, n) == us
  {
    hide Iterate, CannotResolve, Replay;
    StandstillPoll(us, cfg, env);
    if CannotResolve(us, env) {
      forall n: nat ensures Repeat(us, cfg, env, n) == us {
        NothingRepeated(us, cfg, env, n);
      }
    } else {
      assert Repeat(us, cfg, env, 0) == us;
    }
  }

  lemma {:induction false} NothingRepeated(us: Updates, cfg: Config, env: Env, n: nat)
    requires Iterate(us, cfg, env).fx == []
    ensures Repeat(us, cfg, env, n) == us
    decreases n
  {
    hide Iterate, Replay;
    NoSteps(us);
    if n > 0 { NothingRepeated(us, cfg, env, n - 1); }
  }

  // Inputs on which the failing properties fail.

  const GOOD := Target("lmp-1", 1, [App("app", "hub/app@1")])
  const BAD := Target("lmp-2", 2, [])
  const FAILED_BAD := Update(BAD.id, [], Failed, 3)

  function UsedUp(us: Updates): Updates {
    us + [FAILED_BAD] + [FAILED_BAD] + [FAILED_BAD]
  }

  lemma {:induction false} UsedUpIs(us: Updates)
    requires Inv(us) && Current(us).None?
    ensures Inv(UsedUp(us)) && Current(UsedUp(us)).None? && LastSuccess(UsedUp(us)) == LastSuccess(us)
    ensures CountFailed(UsedUp(us), BAD.id) == CountFailed(us, BAD.id) + 3
  {
    hide Inv, LastSuccess, CountFailed;
    var us1 := us + [FAILED_BAD];
    var us2 := us1 + [FAILED_BAD];
    AddKeepsInv(us, FAILED_BAD);
    Adding(us, FAILED_BAD, BAD.id);
    AddKeepsInv(us1, FAILED_BAD);
    Adding(us1, FAILED_BAD, BAD.id);
    AddKeepsInv(us2, FAILED_BAD);
    Adding(us2, FAILED_BAD, BAD.id);
  }

  lemma {:induction false} LatestOfTwo(a: Target, b: Target)
    requires -1 < a.version < b.version
    ensures Latest([b], 0) == b && Latest([a, b], 0) == b
  {
    assert [a, b][..1] == [a] && [a][..0] == [] && [b][..0] == [];
    assert Latest([a], 0) == a;
  }

  /** A device that has never installed anything and has given the only target up installs the unknown target. */
  lemma {:induction false} UnknownIsInstalled(block: FreeSpace.Positive)
    ensures var us, cfg, env := UsedUp([]), Config(None, 0, block), Calm([BAD]);
            LastSuccess(us).None? && Replay(us, Iterate(us, cfg, env).fx) == us + [DONE_UNKNOWN]
  {
    hide Iterate, Replay, CountFailed, LastSuccess, UsedUp, Latest, Inv, Good;
    NothingYet();
    UsedUpIs([]);
    LatestOfTwo(GOOD, BAD);
    LostPoll(UsedUp([]), Config(None, 0, block), Calm([BAD]));
  }

  /** So does a device that has a current target, in one poll in which its record cannot be read; and from then on it
      does not know that target any more. */
  lemma {:induction false} CurrentIsLost(block: FreeSpace.Positive)
    ensures var us, cfg := UsedUp([Update(GOOD.id, Uris(GOOD.apps), Runner.Completed, 5)]), Config(None, 0, block);
            var ts, env := [GOOD, BAD], Calm([GOOD, BAD]);
            var us' := Replay(us, Iterate(us, cfg, env.(lastReadable := false)).fx);
            && FromTarget(us, ts, env) == GOOD
            && us' == us + [DONE_UNKNOWN] && FromTarget(us', ts, env) == UNKNOWN
  {
    hide Iterate, Replay, CountFailed, LastSuccess, UsedUp, Latest, Inv, Good, NoSpace;
    var u := Update(GOOD.id, Uris(GOOD.apps), Runner.Completed, 5);
    var us, cfg, ts, env := UsedUp([u]), Config(None, 0, block), [GOOD, BAD], Calm([GOOD, BAD]);
    OneSuccess(u);
    UsedUpIs([u]);
    LatestOfTwo(GOOD, BAD);
    assert KeepUris(GOOD.apps, Uris(GOOD.apps)) == GOOD.apps by { KeepsItsOwn(GOOD.apps[0]); }
    UnreadableIsGood(cfg, ts);
    LostPoll(us, cfg, env.(lastReadable := false));
    UnknownIsRemembered(us, ts, env);
  }

  lemma {:induction false} KeepsItsOwn(a: App)
    ensures KeepUris([a], Uris([a])) == [a]
  {
    assert [a][1..] == [] && Uris([a])[0] == a.uri;
  }

  lemma {:induction false} UnreadableIsGood(cfg: Config, ts: seq<Target>)
    ensures Good(cfg, Calm(ts).(lastReadable := false))
  {
  }

  /** An update whose ID has no version and is not listed any more stops the daemon. */
  lemma {:induction false} StandsStill(block: FreeSpace.Positive, n: nat)
    ensures var us, env := [Update("main", [], Initialized, 1)], Calm([GOOD]);
            GivesUp(Iterate(Repeat(us, Config(None, 0, block), env, n), Config(None, 0, block), env))
  {
    hide Iterate, Repeat;
    var us, env := [Update("main", [], Initialized, 1)], Calm([GOOD]);
    NoDashNoVersion("main");
    assert [GOOD][1..] == [];
    StandsStillIff(us, Config(None, 0, block), env);
  }

  lemma {:induction false} NothingYet()
    ensures Inv([]) && Current([]).None? && LastSuccess([]).None? && CountFailed([], BAD.id) == 0
  {
  }

  lemma {:induction false} OneSuccess(u: Update)
    requires u.stage.Completed? && u.done == 5
    ensures Inv([u]) && Current([u]).None? && LastSuccess([u]) == Some(u) && CountFailed([u], BAD.id) == 0
  {
    assert [u][..0] == [];
  }

  /** The assumptions of convergence can be met. */
  lemma {:induction false} SteadyWorldExists(block: FreeSpace.Positive)
    ensures exists w, us :: Steady(w) && Idle(w, us) && UrisTellAppsApart(w) && TriesLeft(w, us) == 3
  {
    hide CountFailed, LastSuccess, Latest, Inv;
    var w := World(Config(None, 0, block), Calm([GOOD, BAD]), [GOOD, BAD], GOOD);
    var u := Update(GOOD.id, Uris(GOOD.apps), Runner.Completed, 5);
    OneSuccess(u);
    LatestOfTwo(GOOD, BAD);
    assert Steady(w) && Idle(w, [u]) && UrisTellAppsApart(w) && TriesLeft(w, [u]) == 3;
  }

  /** The current target is started again and again, although the limit is reached: its status cannot be read and it
      does not start any more. */
  lemma {:induction false} CurrentFailsForever(block: FreeSpace.Positive, n: nat)
    ensures var us := UsedUp([Update(GOOD.id, Uris(GOOD.apps), Runner.Completed, 5)]);
            var cfg, env := Config(None, 0, block), Calm([GOOD, BAD]).(start := Ran(Fatal));
            && Fallback(us, env) == GOOD && FromTarget(us, [GOOD, BAD], env).id == GOOD.id
            && FailsToStart(Iterate(Repeat(us, cfg, env, n), cfg, env))
            && CountFailed(Repeat(us, cfg, env, n), GOOD.id) == CountFailed(us, GOOD.id) + n
  {
    hide Iterate, CountFailed, LastSuccess, UsedUp, Latest, Inv, Repeat, FailsToStart;
    var u := Update(GOOD.id, Uris(GOOD.apps), Runner.Completed, 5);
    var us, cfg, env := UsedUp([u]), Config(None, 0, block), Calm([GOOD, BAD]).(start := Ran(Fatal));
    OneSuccess(u);
    UsedUpIs([u]);
    LatestOfTwo(GOOD, BAD);
    FallbackFailsForever(us, cfg, env, n);
  }

  /** A daemon that never settles, although it has completed its current target and reads that all apps are healthy:
      the disabled app has the URI of the enabled one. */
  lemma {:induction false} SharedUriNeverSettles(block: FreeSpace.Positive, statuses: seq<Option<Status>>)
    ensures var on, off := App("on", "hub/app@1"), App("off", "hub/app@1");
            var current := Target("lmp-1", 1, [on, off]);
            var w := World(Config(Some(["on"]), 0, block), Calm([current, BAD]), [current, BAD], current);
            var us := UsedUp([]) + [Update(current.id, [on.uri], Runner.Completed, 5)];
            && Settled(w, us) && Truthful(us, Some(map[on.uri := AppStatus(true, true, true)]))
            && forall it :: it in Polls(w, us, statuses) ==> Synchronizes(it)
  {
    hide Iterate, CountFailed, LastSuccess, UsedUp, Latest, Inv, Replay, EnvAt, Polls, Synchronizes;
    var on, off := App("on", "hub/app@1"), App("off", "hub/app@1");
    var current := Target("lmp-1", 1, [on, off]);
    var w := World(Config(Some(["on"]), 0, block), Calm([current, BAD]), [current, BAD], current);
    var u := Update(current.id, [on.uri], Runner.Completed, 5);
    var us := UsedUp([]) + [u];
    NothingYet();
    UsedUpIs([]);
    AddKeepsInv(UsedUp([]), u);
    Adding(UsedUp([]), u, BAD.id);
    LatestOfTwo(current, BAD);
    OnlyFirstIsKept(on, off);
    assert off in current.apps && on in Enabled(w) && off !in Enabled(w);
    NeverSettles(w, us, statuses);
  }

  lemma {:induction false} OnlyFirstIsKept(on: App, off: App)
    requires on.name != off.name
    ensures KeepNamed([on, off], Some([on.name])) == [on]
  {
    assert [on, off][1..] == [off] && [off][1..] == [];
    assert KeepNamed([off], Some([on.name])) == [];
  }
}
