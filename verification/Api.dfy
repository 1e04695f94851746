// The stage loop and the actions of pkg/api, as they run on a store.

module Api {
  import opened Options
  import opened Runner
  import opened Stages
  import opened UpdateContexts

  class UpdateRunner {
    const ctx: UpdateContext
    const states: seq<ActionState>

    constructor (states: seq<ActionState>, store: Store, cfg: Config)
      ensures this.states == states && ctx.store == store && ctx.cfg == cfg
      ensures fresh(ctx) && ctx.View() == FRESH
    {
      this.states := states;
      this.ctx := new UpdateContext(store, cfg);
    }

    /** Check is followed by Init, and the rest comes after Init. */
    predicate Prepared() {
      forall i :: 0 <= i < |states| ==> match states[i]
        case CheckState(_) => i == 0
        case InitState => i == 1
        case _ => i >= 2 && states[1].InitState?
    }

    /** The loop is about to execute stage i, with fx behind it, and will end as the whole run does. */
    ghost predicate Going(i: nat, env: Env, us: Updates, log0: seq<Effect>, fx: seq<Effect>)
      reads ctx, ctx.store
    {
      && i <= |states| && ctx.num == i + 1 && ctx.store.Did(us, log0, fx)
      && RunsOn(states, us, ctx.cfg, env, i, ctx.View(), ctx.store.updates, fx)
    }

    /** One turn of the loop. */
    method RunStage(i: nat, env: Env, ghost us: Updates, ghost log0: seq<Effect>, ghost fx: seq<Effect>)
      returns (err: Option<Stages.Error>, ghost fx': seq<Effect>)
      requires Going(i, env, us, log0, fx) && i < |states|
      requires states[i].CheckState? || states[i].InitState? || ctx.runner.Some?
      modifies ctx, ctx.store
      ensures err.None? ==> Going(i + 1, env, us, log0, fx')
      ensures err.Some? ==> ctx.Ended(us, log0, Stages.Run(states, FRESH, us, ctx.cfg, env), err) && ctx.num == i + 1
      ensures states[i].InitState? || (!states[i].CheckState? && old(ctx.runner.Some?)) ==> ctx.runner.Some?
    {
      hide Replay, Execute, Stages.Run, RunsOn;
      ghost var c, now := ctx.View(), ctx.store.updates;
      ghost var o := Execute(states[i], c, now, ctx.cfg, env);
      ExecuteKeepsNum(states[i], c, now, ctx.cfg, env);
      ReplayConcat(us, fx, o.fx);
      assert log0 + fx + o.fx == log0 + (fx + o.fx);
      RunUnfolds(states, us, ctx.cfg, env, i, c, now, fx);
      fx' := fx + o.fx;
      err := ctx.ExecuteStage(states[i], env);
      if err.None? { ctx.num := ctx.num + 1; }
    }

    /** Run: execute the stages in turn and stop at the first error. The context then tells the number of the stage. */
    method Run(env: Env) returns (err: Option<Stages.Error>)
      requires Prepared() && ctx.View() == FRESH
      modifies ctx, ctx.store
      ensures ctx.Ended(old(ctx.store.updates), old(ctx.store.log),
                        Stages.Run(states, FRESH, old(ctx.store.updates), ctx.cfg, env), err)
      ensures err.None? <==> ctx.num == |states| + 1
    {
      ghost var us, log0, fx := ctx.store.updates, ctx.store.log, [];
      hide Replay, Execute, Stages.Run, RunsOn;
      NoSteps(us);
      RunBegins(states, us, ctx.cfg, env);
      for i := 0 to |states|
        invariant Going(i, env, us, log0, fx)
        invariant i >= 2 && states[1].InitState? ==> ctx.runner.Some?
      {
        err, fx := RunStage(i, env, us, log0, fx);
        if err.Some? { return; }
      }
      RunEnds(states, us, ctx.cfg, env, ctx.View(), ctx.store.updates, fx);
      return None;
    }
  }

  /** From state c and us', with fx behind it, the loop ends as the whole run does. */
  ghost predicate RunsOn(
    states: seq<ActionState>, us: Updates, cfg: Config, env: Env, i: nat, c: Ctx, us': Updates, fx: seq<Effect>)
    requires i <= |states|
  {
    var rest, all := Stages.Run(states[i..], c, us', cfg, env), Stages.Run(states, FRESH, us, cfg, env);
    all.c == rest.c && all.err == rest.err && all.fx == fx + rest.fx
  }

  lemma {:induction false} RunBegins(states: seq<ActionState>, us: Updates, cfg: Config, env: Env)
    ensures RunsOn(states, us, cfg, env, 0, FRESH, us, [])
  {
    hide Stages.Run;
    assert states[0..] == states;
    var all := Stages.Run(states, FRESH, us, cfg, env);
    assert [] + all.fx == all.fx;
  }

  lemma {:induction false} RunUnfolds(
    states: seq<ActionState>, us: Updates, cfg: Config, env: Env, i: nat, c: Ctx, us': Updates, fx: seq<Effect>)
    requires i < |states| && RunsOn(states, us, cfg, env, i, c, us', fx)
    ensures var o := Execute(states[i], c, us', cfg, env);
            if o.err.Some? then Stages.Run(states, FRESH, us, cfg, env) == Out(o.c, fx + o.fx, o.err)
            else RunsOn(states, us, cfg, env, i + 1, o.c.(num := o.c.num + 1), Replay(us', o.fx), fx + o.fx)
  {
    hide Execute, Replay, Stages.Run;
    var o := Execute(states[i], c, us', cfg, env);
    var tail := states[i..];
    assert tail[0] == states[i] && tail[1..] == states[i + 1..];
    RunByStages(tail, c, us', cfg, env);
    var rest := Stages.Run(states[i + 1..], o.c.(num := o.c.num + 1), Replay(us', o.fx), cfg, env);
    assert fx + (o.fx + rest.fx) == fx + o.fx + rest.fx;
  }

  lemma {:induction false} RunEnds(
    states: seq<ActionState>, us: Updates, cfg: Config, env: Env, c: Ctx, us': Updates, fx: seq<Effect>)
    requires RunsOn(states, us, cfg, env, |states|, c, us', fx)
    ensures Stages.Run(states, FRESH, us, cfg, env) == Out(c, fx, None)
  {
    hide Execute, Replay, Stages.Run;
    RunNone(c, us', cfg, env);
    assert states[|states|..] == [];
    assert fx + [] == fx;
  }

  lemma {:induction false} ExecuteKeepsNum(s: ActionState, c: Ctx, us: Updates, cfg: Config, env: Env)
    ensures Execute(s, c, us, cfg, env).c.num == c.num
  {
    hide Replay, FromTarget, Select, LoadTargets, Complete;
  }

  lemma {:induction false} ActionsArePrepared(a: Action, r: UpdateRunner)
    requires r.states == States(a)
    ensures r.Prepared()
  {
  }

  /** Fetch, Install, Start and Update: build the stage list of the action and run it. */
  method RunAction(a: Action, store: Store, cfg: Config, env: Env) returns (err: Option<Stages.Error>)
    modifies store
    ensures var o := Act(a, old(store.updates), cfg, env);
            err == o.err && store.Did(old(store.updates), old(store.log), o.fx)
  {
    var runner := new UpdateRunner(States(a), store, cfg);
    ActionsArePrepared(a, runner);
    hide Stages.Run, Replay;
    err := runner.Run(env);
  }

  /** Cancel: look the current update up and cancel it. */
  method CancelUpdate(store: Store, lookup: bool, ok: bool) returns (ref: string, done: bool)
    modifies store
    ensures done <==> lookup && ok && Current(old(store.updates)).Some?
    ensures done ==> ref == old(store.updates)[|old(store.updates)| - 1].ref
    ensures store.Did(old(store.updates), old(store.log),
                      if done then [Effect.Cancel(|old(store.updates)| - 1)] else [])
    ensures done ==> Current(store.updates).None?
  {
    var current := Current(store.updates);
    ghost var us, log0 := store.updates, store.log;
    NoSteps(us);
    if !lookup || current.None? { return "", false; }
    ref := store.updates[current.value].ref;
    done := ok;
    if ok {
      hide Replay;
      store.Do(Effect.Cancel(current.value), us, log0, []);
      assert [] + [Effect.Cancel(current.value)] == [Effect.Cancel(current.value)];
    }
  }
}
