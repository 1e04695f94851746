// The daemon: one poll after another, with a limit on failed attempts, fallback to
// the current target and cancellation when a newer target appears (cmd/fioup/daemon.go).

module Daemon {
  import opened Options
  import opened Targets
  import opened Runner
  import opened Stages
  import opened Histories
  import opened UpdateContexts
  import opened Stepwise
  import opened Safety
  import opened Decisions
  import Api

  const MAX_ATTEMPTS: nat := 3

  const POLL: Action := UpdateAction(-1, UpdateOpts(false, false, MAX_ATTEMPTS, true))

  datatype Iteration = Iteration(fx: seq<Effect>, err: Option<Error>, nowait: bool)

  /** checkUpdates: one update run, and what follows from its error. */
  function Iterate(us: Updates, cfg: Config, env: Env): Iteration {
    var o := Act(POLL, us, cfg, env);
    if o.err == Some(ErrNewerVersionIsAvailable) then
      var cancel := CancelEffects(Replay(us, o.fx), true, env.cancel);
      Iteration(o.fx + cancel, o.err, cancel != [])
    else Iteration(o.fx, o.err, o.err == Some(ErrStartFailed))
  }

  datatype DaemonStep = Poll(cfg: Config, env: Env, died: Option<nat>) | UserCancel(lookup: bool, ok: bool)

  function DaemonEffects(us: Updates, s: DaemonStep): seq<Effect> {
    match s
    case Poll(cfg, env, died) =>
      var fx := Iterate(us, cfg, env).fx;
      if died.Some? && died.value <= |fx| then fx[..died.value] else fx
    case UserCancel(lookup, ok) => CancelEffects(us, lookup, ok)
  }

  function DaemonRun(us: Updates, steps: seq<DaemonStep>): Updates
    decreases |steps|
  {
    if steps == [] then us else DaemonRun(Replay(us, DaemonEffects(us, steps[0])), steps[1..])
  }

  /** One round of the daemon: the configuration may be read again before the poll, and while the daemon sleeps. */
  datatype Round = Round(before: Option<Config>, env: Env, asleep: Option<Config>)

  function Reloaded(cfg: Config, reload: Option<Config>): Config {
    if reload.Some? then reload.value else cfg
  }

  /** The polls of some rounds: without a wait there is no sleep in which the configuration could be read again. */
  function Polled(us: Updates, cfg: Config, rounds: seq<Round>): seq<DaemonStep>
    decreases |rounds|
  {
    if rounds == [] then [] else
      var r, cfg0 := rounds[0], Reloaded(cfg, rounds[0].before);
      var it := Iterate(us, cfg0, r.env);
      [Poll(cfg0, r.env, None)]
      + Polled(Replay(us, it.fx), if it.nowait then cfg0 else Reloaded(cfg0, r.asleep), rounds[1..])
  }

  function Sleeps(us: Updates, steps: seq<DaemonStep>): nat
    decreases |steps|
  {
    if steps == [] then 0 else
      (if steps[0].Poll? && !Iterate(us, steps[0].cfg, steps[0].env).nowait then 1 else 0)
      + Sleeps(Replay(us, DaemonEffects(us, steps[0])), steps[1..])
  }

  lemma {:induction false} RoundIs(us: Updates, cfg: Config, rounds: seq<Round>)
    ensures rounds == [] ==> DaemonRun(us, Polled(us, cfg, rounds)) == us && Sleeps(us, Polled(us, cfg, rounds)) == 0
    ensures rounds != [] ==>
              var cfg0 := Reloaded(cfg, rounds[0].before);
              var it := Iterate(us, cfg0, rounds[0].env);
              var us' := Replay(us, it.fx);
              var rest := Polled(us', if it.nowait then cfg0 else Reloaded(cfg0, rounds[0].asleep), rounds[1..]);
              && DaemonRun(us, Polled(us, cfg, rounds)) == DaemonRun(us', rest)
              && Sleeps(us, Polled(us, cfg, rounds)) == (if it.nowait then 0 else 1) + Sleeps(us', rest)
  {
    hide Iterate, Replay, Reloaded;
  }

  /** A configuration read while the daemon would sleep counts from the next poll on if it does sleep, and does not
      count at all if the poll asks for the next one at once. */
  lemma {:induction false} AsleepCountsIff(us: Updates, cfg: Config, r: Round, rest: seq<Round>, reload: Option<Config>)
    ensures var it := Iterate(us, Reloaded(cfg, r.before), r.env);
            var first := [Poll(Reloaded(cfg, r.before), r.env, None)];
            && (it.nowait ==> Polled(us, cfg, [r] + rest) == Polled(us, cfg, [r.(asleep := reload)] + rest))
            && (!it.nowait && r.asleep.Some? ==>
                  Polled(us, cfg, [r] + rest) == first + Polled(Replay(us, it.fx), r.asleep.value, rest))
            && (!it.nowait && r.asleep.None? ==>
                  Polled(us, cfg, [r] + rest) == first + Polled(Replay(us, it.fx), Reloaded(cfg, r.before), rest))
            && Sleeps(us, first) == (if it.nowait then 0 else 1)
  {
    hide Iterate, Replay;
    var r' := r.(asleep := reload);
    assert ([r] + rest)[1..] == rest && ([r'] + rest)[1..] == rest;
    var first := [Poll(Reloaded(cfg, r.before), r.env, None)];
    assert first[1..] == [];
  }

  /** The updater: its configuration is replaced when the daemon reloads. */
  class Updater {
    const store: Store
    var cfg: Config

    constructor (store: Store, cfg: Config)
      ensures this.store == store && this.cfg == cfg
    {
      this.store, this.cfg := store, cfg;
    }

    method Reload(cfg: Config)
      modifies this
      ensures this.cfg == cfg
    {
      this.cfg := cfg;
    }

    /** Cancel the update in progress; `fx` is what has been done before. */
    method CancelOld(env: Env, ghost us: Updates, ghost log0: seq<Effect>, ghost fx: seq<Effect>) returns (done: bool)
      requires store.Did(us, log0, fx)
      modifies store
      ensures var cancel := CancelEffects(old(store.updates), true, env.cancel);
              done == (cancel != []) && store.Did(us, log0, fx + cancel)
    {
      hide Replay;
      ghost var cancel := CancelEffects(store.updates, true, env.cancel);
      ReplayConcat(us, fx, cancel);
      assert log0 + fx + cancel == log0 + (fx + cancel);
      var _, canceled := Api.CancelUpdate(store, true, env.cancel);
      done := canceled;
    }

    method CheckUpdates(env: Env) returns (nowait: bool, err: Option<Stages.Error>)
      modifies store
      ensures var it := Iterate(old(store.updates), cfg, env);
              nowait == it.nowait && err == it.err && store.Did(old(store.updates), old(store.log), it.fx)
    {
      ghost var us, log0, fx := store.updates, store.log, Act(POLL, store.updates, cfg, env).fx;
      hide Act, Replay, CancelEffects;
      nowait := false;
      err := Api.RunAction(POLL, store, cfg, env);
      if err == Some(ErrNewerVersionIsAvailable) {
        nowait := CancelOld(env, us, log0, fx);
      } else if err == Some(ErrStartFailed) {
        nowait := true;
      }
    }

    /** One round of the loop. */
    method DoRound(r: Round) returns (slept: bool)
      modifies this, store
      ensures var cfg0 := Reloaded(old(cfg), r.before);
              var it := Iterate(old(store.updates), cfg0, r.env);
              && store.updates == Replay(old(store.updates), it.fx) && slept == !it.nowait
              && cfg == if it.nowait then cfg0 else Reloaded(cfg0, r.asleep)
    {
      hide Iterate, Replay;
      if r.before.Some? { Reload(r.before.value); }
      var nowait, _ := CheckUpdates(r.env);
      slept := !nowait;
      if slept && r.asleep.Some? { Reload(r.asleep.value); }
    }

    /** The loop of doDaemon, for as many rounds as the daemon lives. */
    method DoDaemon(rounds: seq<Round>) returns (sleeps: nat)
      modifies this, store
      ensures var steps := Polled(old(store.updates), old(cfg), rounds);
              store.updates == DaemonRun(old(store.updates), steps) && sleeps == Sleeps(old(store.updates), steps)
    {
      ghost var us0, steps0 := store.updates, Polled(store.updates, cfg, rounds);
      hide Iterate, Replay, Polled, DaemonRun, Sleeps, Reloaded;
      sleeps := 0;
      assert rounds[0..] == rounds;
      for i := 0 to |rounds|
        invariant DaemonRun(store.updates, Polled(store.updates, cfg, rounds[i..])) == DaemonRun(us0, steps0)
        invariant sleeps + Sleeps(store.updates, Polled(store.updates, cfg, rounds[i..])) == Sleeps(us0, steps0)
      {
        assert rounds[i..][0] == rounds[i] && rounds[i..][1..] == rounds[i + 1..];
        RoundIs(store.updates, cfg, rounds[i..]);
        var slept := DoRound(rounds[i]);
        if slept { sleeps := sleeps + 1; }
      }
      assert rounds[|rounds|..] == [];
      RoundIs(store.updates, cfg, []);
    }
  }

  // Cancellation.

  /** Check refuses a poll for a newer version exactly if the update in progress is not for the latest target. */
  lemma {:induction false} NewerVersionIff(us: Updates, cfg: Config, env: Env)
    ensures var o := Check(Opts(POLL), FRESH, us, cfg, env);
            o.err == Some(ErrNewerVersionIsAvailable) <==>
              && env.lookup && Current(us).Some? && LoadTargets(Opts(POLL), env).Some?
              && TargetOf(us[|us| - 1], LoadTargets(Opts(POLL), env).value, env.parse).Some?
              && Latest(LoadTargets(Opts(POLL), env).value, cfg.versionLimit).id != us[|us| - 1].ref
  {
    hide Diff, FromTarget, LoadTargets, InSync, TargetOf, Latest, SyncTarget, CountFailed;
  }

  lemma {:induction false} OnlyCheckRefuses(states: seq<ActionState>, c: Ctx, us: Updates, cfg: Config, env: Env)
    requires forall i :: 0 <= i < |states| ==> !states[i].CheckState?
    ensures Run(states, c, us, cfg, env).err !in {Some(ErrNewerVersionIsAvailable), Some(ErrInvalidOngoingUpdate)}
    decreases |states|
  {
    hide Run, Replay, OpEffects, Complete, Execute;
    if states == [] {
      RunNone(c, us, cfg, env);
    } else {
      RunByStages(states, c, us, cfg, env);
      StageErrors(states[0], c, us, cfg, env);
      var o := Execute(states[0], c, us, cfg, env);
      if o.err.None? { OnlyCheckRefuses(states[1..], o.c.(num := o.c.num + 1), Replay(us, o.fx), cfg, env); }
    }
  }

  lemma {:induction false} StageErrors(s: ActionState, c: Ctx, us: Updates, cfg: Config, env: Env)
    requires !s.CheckState?
    ensures Execute(s, c, us, cfg, env).err !in {Some(ErrNewerVersionIsAvailable), Some(ErrInvalidOngoingUpdate)}
  {
    hide Replay, OpEffects, Complete, OpSucceeds;
  }

  /** A poll gives up the update in progress exactly if a newer target is available; it then does nothing but cancel
      it, and the next poll follows at once if the cancellation succeeds. */
  lemma {:induction false} PollCancelsIff(us: Updates, cfg: Config, env: Env)
    ensures var it := Iterate(us, cfg, env);
            var newer := && env.lookup && Current(us).Some? && LoadTargets(Opts(POLL), env).Some?
                         && TargetOf(us[|us| - 1], LoadTargets(Opts(POLL), env).value, env.parse).Some?
                         && LatestAt(cfg, env).id != us[|us| - 1].ref;
            && (it.err == Some(ErrNewerVersionIsAvailable) <==> newer)
            && (newer ==>
                  && it.fx == (if env.cancel then [Effect.Cancel(|us| - 1)] else [])
                  && it.nowait == env.cancel
                  && Replay(us, it.fx) == (if env.cancel then us[|us| - 1 := us[|us| - 1].(stage := Canceled)] else us)
                  && (env.cancel ==> Current(Replay(us, it.fx)).None?))
  {
    hide Act, Check, Run, Replay, TargetOf, Latest, LoadTargets, AfterCheck;
    NewerVersionIff(us, cfg, env);
    ActIs(POLL, us, cfg, env);
    StartsWithInit(POLL);
    NoSteps(us);
    var o := Check(Opts(POLL), FRESH, us, cfg, env);
    if o.err.None? { OnlyCheckRefuses(AfterCheck(POLL), o.c.(num := o.c.num + 1), us, cfg, env); }
    if Current(us).Some? {
      OneStep(us, Effect.Cancel(|us| - 1));
      assert [] + [Effect.Cancel(|us| - 1)] == [Effect.Cancel(|us| - 1)];
    }
  }

  /** A poll gives the update in progress up as invalid exactly if its target is neither listed nor can be rebuilt from
      its record; it does nothing else then, and does not cancel it. */
  lemma {:induction false} StandstillPoll(us: Updates, cfg: Config, env: Env)
    ensures var it := Iterate(us, cfg, env);
            (it == Iteration([], Some(ErrInvalidOngoingUpdate), false) <==> CannotResolve(us, env))
            && (it.err == Some(ErrInvalidOngoingUpdate) <==> CannotResolve(us, env))
  {
    hide Act, Check, Run, Replay, TargetOf, Latest, LoadTargets, AfterCheck;
    InvalidIff(us, cfg, env);
    ActIs(POLL, us, cfg, env);
    StartsWithInit(POLL);
    var o := Check(Opts(POLL), FRESH, us, cfg, env);
    if o.err.None? { OnlyCheckRefuses(AfterCheck(POLL), o.c.(num := o.c.num + 1), us, cfg, env); }
  }

  predicate CannotResolve(us: Updates, env: Env) {
    && env.lookup && Current(us).Some? && LoadTargets(Opts(POLL), env).Some?
    && TargetOf(us[|us| - 1], LoadTargets(Opts(POLL), env).value, env.parse).None?
  }

  lemma {:induction false} InvalidIff(us: Updates, cfg: Config, env: Env)
    ensures Check(Opts(POLL), FRESH, us, cfg, env).err == Some(ErrInvalidOngoingUpdate) <==> CannotResolve(us, env)
  {
    hide Diff, FromTarget, LoadTargets, InSync, TargetOf, Latest, SyncTarget, CountFailed;
  }

  // The attempt bound.

  /** Failed updates to a target, plus the one in progress if it is to that target. */
  function Attempts(us: Updates, ref: string): nat {
    CountFailed(us, ref) + (if Current(us).Some? && us[|us| - 1].ref == ref then 1 else 0)
  }

  /** Attempts, told from the newest update and those before it. */
  lemma {:induction false} AttemptsOf(us: Updates, u: Update, ref: string)
    ensures Attempts(us + [u], ref)
            == CountFailed(us, ref) + (if u.ref == ref && (u.stage.Failed? || !Terminal(u.stage)) then 1 else 0)
  {
    assert (us + [u])[..|us + [u]| - 1] == us;
  }

  lemma {:induction false} AttemptsStep(us: Updates, e: Effect, ref: string)
    requires StepOk(us, e)
    ensures Attempts(Apply(us, e), ref) <= Attempts(us, ref) + (if e == New(ref) then 1 else 0)
  {
    hide Attempts, CountFailed;
    if e.New? {
      AttemptsOf(us, Update(e.ref, [], Created, 0), ref);
      AttemptsEnded(us, ref);
    } else if us != [] {
      var before, last, us' := us[..|us| - 1], |us| - 1, Apply(us, e);
      ForwardStep(us, e, last);
      assert us == before + [us[last]];
      assert us' == before + [us'[last]];
      AttemptsOf(before, us[last], ref);
      AttemptsOf(before, us'[last], ref);
    }
  }

  lemma {:induction false} AttemptsEnded(us: Updates, ref: string)
    requires us == [] || Terminal(us[|us| - 1].stage)
    ensures Attempts(us, ref) == CountFailed(us, ref)
  {
  }

  lemma {:induction false} AttemptsGrowByCreation(us: Updates, fx: seq<Effect>, ref: string)
    requires Inv(us) && StepsOk(us, fx) && forall i :: 0 < i < |fx| ==> fx[i] != New(ref)
    ensures Attempts(Replay(us, fx), ref) <= Attempts(us, ref) + (if fx != [] && fx[0] == New(ref) then 1 else 0)
  {
    if fx != [] {
      AttemptsGrowByCreation(us, fx[..|fx| - 1], ref);
      AttemptsStep(Replay(us, fx[..|fx| - 1]), fx[|fx| - 1], ref);
    }
  }

  /** The target a poll falls back to, if targets can be loaded: the listed target of the current target's version,
      else the current target. */
  function Fallback(us: Updates, env: Env): Target {
    var ts := LoadTargets(Opts(POLL), env);
    if ts.None? then UNKNOWN else SyncTarget(ts.value, FromTarget(us, ts.value, env))
  }

  function LatestAt(cfg: Config, env: Env): Target {
    var ts := LoadTargets(Opts(POLL), env);
    if ts.None? then UNKNOWN else Latest(ts.value, cfg.versionLimit)
  }

  /** The target of a poll with nothing in progress: the latest one until it has failed too often. */
  function Chosen(us: Updates, cfg: Config, env: Env): Target {
    if env.countReadable && CountFailed(us, LatestAt(cfg, env).id) >= MAX_ATTEMPTS then Fallback(us, env)
    else LatestAt(cfg, env)
  }

  lemma {:induction false} PollSelects(us: Updates, cfg: Config, env: Env)
    requires Current(us).None?
    ensures var o := Check(Opts(POLL), FRESH, us, cfg, env);
            o.err.None? || o.err == Some(ErrCheckNoUpdate) ==>
              && LatestAt(cfg, env).id != UNKNOWN.id
              && env.lookup && LoadTargets(Opts(POLL), env).Some?
              && o.c.from == FromTarget(us, LoadTargets(Opts(POLL), env).value, env)
              && o.c.to == Chosen(us, cfg, env).(apps := KeepNamed(Chosen(us, cfg, env).apps, cfg.enabled))
  {
    hide Diff, FromTarget, LoadTargets, InSync, TargetOf, Latest, SyncTarget, CountFailed;
  }

  /** With targets loaded and the selected target known, a poll with nothing in progress either finds nothing to do
      or goes ahead with it. */
  lemma {:induction false} PollProceeds(us: Updates, cfg: Config, env: Env)
    requires Current(us).None? && env.lookup
    requires LoadTargets(Opts(POLL), env).Some? && LatestAt(cfg, env).id != UNKNOWN.id
    ensures var o := Check(Opts(POLL), FRESH, us, cfg, env);
            o.err.None? || o.err == Some(ErrCheckNoUpdate)
  {
    hide Diff, FromTarget, LoadTargets, InSync, TargetOf, Latest, SyncTarget, CountFailed;
  }

  /** This is the current target, the recorded apps are the enabled ones, and the status shows all of them healthy. */
  predicate UpToDate(t: Target, us: Updates, cfg: Config, env: Env) {
    var ts := LoadTargets(Opts(POLL), env);
    var from := if ts.Some? then FromTarget(us, ts.value, env) else UNKNOWN;
    var apps := KeepNamed(t.apps, cfg.enabled);
    && t.id == from.id && !ListChanged(Diff(from.apps, apps))
    && env.status.Some? && forall a :: a in apps ==> Healthy(env.status.value, a.uri)
  }

  /** A poll has something to create: nothing is in progress, there is a latest target, and the chosen target is not
      the current one in sync. */
  predicate HasWork(us: Updates, cfg: Config, env: Env) {
    && Current(us).None? && env.lookup && LoadTargets(Opts(POLL), env).Some?
    && LatestAt(cfg, env).id != UNKNOWN.id && !UpToDate(Chosen(us, cfg, env), us, cfg, env)
  }

  lemma {:induction false} PollPassesIff(us: Updates, cfg: Config, env: Env)
    requires Current(us).None?
    ensures Check(Opts(POLL), FRESH, us, cfg, env).err.None? <==> HasWork(us, cfg, env)
  {
    hide Check, FromTarget, LoadTargets, Chosen, LatestAt, ListChanged, InSync;
    PollSelects(us, cfg, env);
    var o := Check(Opts(POLL), FRESH, us, cfg, env);
    if env.lookup && LoadTargets(Opts(POLL), env).Some? && LatestAt(cfg, env).id != UNKNOWN.id {
      PollProceeds(us, cfg, env);
      CheckDecides(Opts(POLL), FRESH, us, cfg, env);
      InSyncIff(o.c, env.status);
    }
  }

  lemma {:induction false} InSyncIff(c: Ctx, st: Option<Status>)
    ensures InSync(c, st) <==>
              !ListChanged(c.diff) && st.Some? && forall a :: a in c.to.apps ==> Healthy(st.value, a.uri)
  {
    InSyncMeans(c, st);
  }

  /** A poll creates an update to a target that has used its attempts up. */
  predicate Exceeds(us: Updates, cfg: Config, env: Env, ref: string) {
    HasWork(us, cfg, env) && Chosen(us, cfg, env).id == ref && CountFailed(us, ref) >= MAX_ATTEMPTS
  }

  predicate Bounded(us: Updates, s: DaemonStep, ref: string) {
    s.Poll? ==> !Exceeds(us, s.cfg, s.env, ref)
  }

  predicate AlwaysBounded(us: Updates, steps: seq<DaemonStep>, ref: string)
    decreases |steps|
  {
    steps == [] ||
    (Bounded(us, steps[0], ref) && AlwaysBounded(Replay(us, DaemonEffects(us, steps[0])), steps[1..], ref))
  }

  lemma {:induction false} CancelIsWellPlaced(us: Updates, lookup: bool, ok: bool, ref: string)
    requires Inv(us)
    ensures StepsOk(us, CancelEffects(us, lookup, ok))
    ensures forall i :: 0 <= i < |CancelEffects(us, lookup, ok)| ==> CancelEffects(us, lookup, ok)[i] != New(ref)
  {
    NoSteps(us);
    if CancelEffects(us, lookup, ok) != [] { OneStep(us, Cancel(Current(us).value)); }
  }

  lemma {:induction false} IterationIsWellPlaced(us: Updates, cfg: Config, env: Env, ref: string)
    requires Inv(us)
    ensures var fx := Iterate(us, cfg, env).fx;
            && StepsOk(us, fx) && (forall i :: 0 < i < |fx| ==> fx[i] != New(ref))
            && (fx != [] && fx[0] == New(ref) <==>
                Check(Opts(POLL), FRESH, us, cfg, env).err.None? && Current(us).None?
                && Check(Opts(POLL), FRESH, us, cfg, env).c.to.id == ref)
  {
    hide Act, Replay, StepsOk, Check, CancelEffects;
    ActionsAreOrdered(POLL);
    ActIsWellPlaced(POLL, us, cfg, env);
    CreatesFirst(POLL, us, cfg, env);
    ActIs(POLL, us, cfg, env);
    var o := Act(POLL, us, cfg, env);
    ReplayKeepsInv(us, o.fx);
    if o.err == Some(ErrNewerVersionIsAvailable) {
      CancelIsWellPlaced(Replay(us, o.fx), true, env.cancel, ref);
      StepsConcat(us, o.fx, CancelEffects(Replay(us, o.fx), true, env.cancel));
    }
  }

  /** Within a poll the attempts to a target exceed the limit exactly if there is something to create, the chosen
      target is this one, and its attempts are used up: the failures of the target that a poll falls back to are
      never looked at. */
  lemma {:induction false} PollExceedsIff(us: Updates, cfg: Config, env: Env, ref: string)
    requires Inv(us) && Attempts(us, ref) <= MAX_ATTEMPTS
    ensures var fx := Iterate(us, cfg, env).fx;
            (exists n :: 0 <= n <= |fx| && Attempts(Replay(us, fx[..n]), ref) > MAX_ATTEMPTS)
            <==> Exceeds(us, cfg, env, ref)
  {
    hide Iterate, Replay, StepsOk, Check, Attempts, CountFailed, Chosen, Inv, UpToDate;
    var fx := Iterate(us, cfg, env).fx;
    IterationIsWellPlaced(us, cfg, env, ref);
    if Current(us).None? {
      PollSelects(us, cfg, env);
      PollPassesIff(us, cfg, env);
      AttemptsOngoing(us, ref);
    }
    if fx != [] && fx[0] == New(ref) && CountFailed(us, ref) >= MAX_ATTEMPTS {
      assert fx[..1] == [New(ref)];
      OneStep(us, New(ref));
      AttemptsOf(us, Update(ref, [], Created, 0), ref);
    } else {
      forall n | 0 <= n <= |fx| ensures Attempts(Replay(us, fx[..n]), ref) <= MAX_ATTEMPTS {
        StepsPrefix(us, fx, n);
        AttemptsGrowByCreation(us, fx[..n], ref);
      }
    }
  }

  lemma {:induction false} AttemptsOngoing(us: Updates, ref: string)
    requires Current(us).None?
    ensures Attempts(us, ref) == CountFailed(us, ref)
  {
  }

  lemma {:induction false} DaemonStepIsWellPlaced(us: Updates, s: DaemonStep, ref: string)
    requires Inv(us) && Attempts(us, ref) <= MAX_ATTEMPTS && Bounded(us, s, ref)
    ensures var us' := Replay(us, DaemonEffects(us, s)); Inv(us') && Attempts(us', ref) <= MAX_ATTEMPTS
  {
    hide Iterate, Replay, StepsOk, Check, Attempts, CountFailed, CancelEffects, Inv, Exceeds;
    var fx := DaemonEffects(us, s);
    match s
    case Poll(cfg, env, died) =>
      var all := Iterate(us, cfg, env).fx;
      IterationIsWellPlaced(us, cfg, env, ref);
      PollExceedsIff(us, cfg, env, ref);
      var n := if died.Some? && died.value <= |all| then died.value else |all|;
      assert all[..n] == fx;
      StepsPrefix(us, all, n);
      ReplayKeepsInv(us, fx);
    case UserCancel(lookup, ok) =>
      CancelIsWellPlaced(us, lookup, ok, ref);
      ReplayKeepsInv(us, fx);
      AttemptsGrowByCreation(us, fx, ref);
  }

  /** The attempt bound: whatever targets the polls load, wherever they die and whatever is cancelled, the failed
      updates to a target and the one in progress never exceed the limit, as long as no poll exceeds it. */
  lemma {:induction false} AttemptBound(us: Updates, steps: seq<DaemonStep>, ref: string)
    requires Inv(us) && Attempts(us, ref) <= MAX_ATTEMPTS && AlwaysBounded(us, steps, ref)
    ensures Inv(DaemonRun(us, steps)) && Attempts(DaemonRun(us, steps), ref) <= MAX_ATTEMPTS
    decreases |steps|
  {
    hide Replay, DaemonEffects, Bounded, Attempts, Inv;
    if steps != [] {
      DaemonStepIsWellPlaced(us, steps[0], ref);
      AttemptBound(Replay(us, DaemonEffects(us, steps[0])), steps[1..], ref);
    }
  }

  /** In particular no poll exceeds it for a target that is not the one to fall back to, if failures can be counted. */
  lemma {:induction false} OnlyFallbackExceeds(us: Updates, cfg: Config, env: Env, ref: string)
    requires env.countReadable && Fallback(us, env).id != ref
    ensures !Exceeds(us, cfg, env, ref)
  {
    hide Fallback, LatestAt, UpToDate, CountFailed;
  }

  /** All polls of a run can count failures and would fall back to another target. */
  predicate NeverFallsBackTo(us: Updates, steps: seq<DaemonStep>, ref: string)
    decreases |steps|
  {
    steps == [] ||
    (var s := steps[0];
     && (s.Poll? ==> s.env.countReadable && Fallback(us, s.env).id != ref)
     && NeverFallsBackTo(Replay(us, DaemonEffects(us, s)), steps[1..], ref))
  }

  lemma {:induction false} OthersAreBounded(us: Updates, steps: seq<DaemonStep>, ref: string)
    requires NeverFallsBackTo(us, steps, ref)
    ensures AlwaysBounded(us, steps, ref)
    decreases |steps|
  {
    hide Replay, DaemonEffects, Exceeds, Fallback;
    if steps != [] {
      if steps[0].Poll? { OnlyFallbackExceeds(us, steps[0].cfg, steps[0].env, ref); }
      OthersAreBounded(Replay(us, DaemonEffects(us, steps[0])), steps[1..], ref);
    }
  }
}
