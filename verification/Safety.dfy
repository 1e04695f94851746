// What holds over whole histories: any sequence of fetch, install, start and
// update runs and cancellations, each run cut short anywhere by a dying process,
// with every answer of the environment.

module Safety {
  import opened Options
  import opened Runner
  import opened Stages
  import opened Histories

  /** One run, dead after `died` of its effects if that is given and not later than its end; or a cancellation. */
  datatype Step =
    | RunStep(action: Action, cfg: Config, env: Env, died: Option<nat>)
    | CancelStep(lookup: bool, ok: bool)

  /** Cancel (cancel.go): looks the current update up and cancels it. */
  function CancelEffects(us: Updates, lookup: bool, ok: bool): seq<Effect> {
    if lookup && ok && Current(us).Some? then [Cancel(Current(us).value)] else []
  }

  function StepEffects(us: Updates, s: Step): seq<Effect> {
    match s
    case RunStep(a, cfg, env, died) =>
      var fx := Act(a, us, cfg, env).fx;
      if died.Some? && died.value <= |fx| then fx[..died.value] else fx
    case CancelStep(lookup, ok) => CancelEffects(us, lookup, ok)
  }

  function History(us: Updates, steps: seq<Step>): seq<Effect> {
    if steps == [] then [] else
      var fx := History(us, steps[..|steps| - 1]);
      fx + StepEffects(Replay(us, fx), steps[|steps| - 1])
  }

  lemma {:induction false} StepIsWellPlaced(us: Updates, s: Step)
    requires Inv(us)
    ensures StepsOk(us, StepEffects(us, s))
  {
    hide Replay, StepsOk;
    NoSteps(us);
    if s.RunStep? {
      ActionsAreOrdered(s.action);
      RunIsWellPlaced(States(s.action), 0, FRESH, us, s.cfg, s.env);
      if s.died.Some? && s.died.value <= |Act(s.action, us, s.cfg, s.env).fx| {
        StepsPrefix(us, Act(s.action, us, s.cfg, s.env).fx, s.died.value);
      }
    } else if CancelEffects(us, s.lookup, s.ok) != [] {
      OneStep(us, Cancel(Current(us).value));
    }
  }

  lemma {:induction false} HistoryIsWellPlaced(us: Updates, steps: seq<Step>)
    requires Inv(us)
    ensures StepsOk(us, History(us, steps)) && Inv(Replay(us, History(us, steps)))
  {
    hide Replay, StepsOk;
    NoSteps(us);
    if steps != [] {
      var before := steps[..|steps| - 1];
      HistoryIsWellPlaced(us, before);
      var fx := History(us, before);
      StepIsWellPlaced(Replay(us, fx), steps[|steps| - 1]);
      StepsConcat(us, fx, StepEffects(Replay(us, fx), steps[|steps| - 1]));
    }
    ReplayKeepsInv(us, History(us, steps));
  }

  /** On every update the operations that succeed are exactly the next ones of Init, Fetch, Install, Start,
      Complete: nothing finished is redone, nothing is skipped, and the update is completed once the last one is
      done. */
  lemma {:induction false} OperationsInOrder(us: Updates, steps: seq<Step>, id: nat)
    requires Inv(us)
    ensures var fx := History(us, steps);
            var end := Replay(us, fx);
            && DoneAt(us, id) <= DoneAt(end, id) <= |OPS|
            && Successes(fx, id) == OPS[DoneAt(us, id)..DoneAt(end, id)]
            && (id < |end| ==> (end[id].stage.Completed? <==> DoneAt(end, id) == |OPS|))
  {
    hide Replay, StepsOk;
    HistoryIsWellPlaced(us, steps);
    hide History, Inv, Successes;
    SuccessesAreDone(us, History(us, steps), id);
    var end := Replay(us, History(us, steps));
    if id < |end| { DoneIsRank(end, id); }
  }

  /** The updates after the first n effects of a history. */
  function Moment(us: Updates, steps: seq<Step>, n: nat): Updates
    requires n <= |History(us, steps)|
  {
    Replay(us, History(us, steps)[..n])
  }

  lemma {:induction false} MomentsFollow(us: Updates, steps: seq<Step>, n: nat, m: nat)
    requires Inv(us) && n <= m <= |History(us, steps)|
    ensures var later := History(us, steps)[n..m];
            && Inv(Moment(us, steps, n))
            && StepsOk(Moment(us, steps, n), later)
            && Moment(us, steps, m) == Replay(Moment(us, steps, n), later)
  {
    hide Replay, StepsOk, Inv;
    var fx := History(us, steps);
    HistoryIsWellPlaced(us, steps);
    hide History;
    StepsPrefix(us, fx, m);
    assert fx[..m] == fx[..n] + fx[n..m];
    StepsPrefix(us, fx, n);
    ReplayKeepsInv(us, fx[..n]);
    ReplayConcat(us, fx[..n], fx[n..m]);
    StepsSuffix(us, fx[..n], fx[n..m]);
  }

  lemma {:induction false} StepsSuffix(us: Updates, a: seq<Effect>, b: seq<Effect>)
    requires StepsOk(us, a + b)
    ensures StepsOk(Replay(us, a), b)
  {
    if b != [] {
      assert (a + b)[..|a + b| - 1] == a + b[..|b| - 1];
      StepsSuffix(us, a, b[..|b| - 1]);
      ReplayConcat(us, a, b[..|b| - 1]);
    }
  }

  /** Between any two moments of any history an update keeps its target and, once past Created, its app list;
      its stage only moves forward, or into Canceled or Failed, and never leaves a final stage. */
  lemma {:induction false} NeverBackwards(us: Updates, steps: seq<Step>, n: nat, m: nat, id: nat)
    requires Inv(us)
    ensures n <= m <= |History(us, steps)| && id < |Moment(us, steps, n)| ==>
              id < |Moment(us, steps, m)| && SameUpdate(Moment(us, steps, n)[id], Moment(us, steps, m)[id])
  {
    hide Replay, StepsOk, History;
    if n <= m <= |History(us, steps)| && id < |Moment(us, steps, n)| {
      MomentsFollow(us, steps, n, m);
      OnlyForward(Moment(us, steps, n), History(us, steps)[n..m], id);
    }
  }

  lemma {:induction false} StepAt(us: Updates, steps: seq<Step>, n: nat)
    requires Inv(us) && n < |History(us, steps)|
    ensures Inv(Moment(us, steps, n)) && StepOk(Moment(us, steps, n), History(us, steps)[n])
  {
    hide Replay, StepsOk;
    MomentsFollow(us, steps, n, n + 1);
    assert History(us, steps)[n..n + 1] == [History(us, steps)[n]];
    OneStep(Moment(us, steps, n), History(us, steps)[n]);
  }

  /** Every runner call of every history is made on the newest update and in a legal stage of the operation,
      but for completion attempts that follow one which failed the update. */
  lemma {:induction false} CallsAreLegal(us: Updates, steps: seq<Step>, n: nat)
    requires Inv(us)
    ensures n < |History(us, steps)| && History(us, steps)[n].Call? ==>
              var now, e := Moment(us, steps, n), History(us, steps)[n];
              e.id == |now| - 1 && (Legal(e.op, now[e.id].stage) || RetryAfterFailure(now[e.id], e.op))
  {
    hide Replay, StepsOk, History;
    if n < |History(us, steps)| { StepAt(us, steps, n); }
  }

  predicate AllCallsLegal(us: Updates, fx: seq<Effect>) {
    fx == [] ||
    (var e := fx[|fx| - 1];
     AllCallsLegal(us, fx[..|fx| - 1]) && (e.Call? ==> Legal(e.op, StageAt(Replay(us, fx[..|fx| - 1]), e.id))))
  }

  lemma {:induction false} CallsConcat(us: Updates, a: seq<Effect>, b: seq<Effect>)
    ensures AllCallsLegal(us, a + b) <==> AllCallsLegal(us, a) && AllCallsLegal(Replay(us, a), b)
  {
    if b == [] {
      assert a + b == a;
    } else {
      var b' := b[..|b| - 1];
      assert (a + b)[..|a + b| - 1] == a + b';
      CallsConcat(us, a, b');
      ReplayConcat(us, a, b');
    }
  }

  lemma {:induction false} OpCallLegal(us: Updates, id: nat, op: Op, r: OpResult)
    ensures AllCallsLegal(us, OpEffects(us, id, op, [], r)) <==> Legal(op, StageAt(us, id))
  {
    var fx := OpEffects(us, id, op, [], r);
    var call := [Call(id, op, [])];
    assert fx == call + fx[1..];
    assert call[..0] == [] && Replay(us, []) == us;
    CallsConcat(us, call, fx[1..]);
    QuietCalls(Replay(us, call), fx[1..]);
  }

  lemma {:induction false} QuietCalls(us: Updates, fx: seq<Effect>)
    requires forall i :: 0 <= i < |fx| ==> !fx[i].Call?
    ensures AllCallsLegal(us, fx)
  {
    if fx != [] { QuietCalls(us, fx[..|fx| - 1]); }
  }

  /** An attempt that is not the last one fails the update before any attempt succeeds. */
  predicate FailsEarly(rs: seq<OpResult>) {
    exists i :: 0 <= i < |rs| - 1 && rs[i] == Ran(Fatal) && forall j :: 0 <= j < i ==> rs[j] != Ran(Done)
  }

  /** The completion attempts call the runner outside its legal stages exactly when an attempt other than the
      last moves the update to Failed: the retry then runs on an update that has ended. */
  lemma {:induction false} RetryIsIllegalIff(us: Updates, id: nat, rs: seq<OpResult>)
    requires id < |us| && Legal(CompleteOp, us[id].stage)
    ensures AllCallsLegal(us, Complete(us, id, rs)) <==> !FailsEarly(rs)
    decreases |rs|
  {
    hide Replay, StepsOk;
    if rs != [] {
      var fx, rest := OpEffects(us, id, CompleteOp, [], rs[0]), rs[1..];
      OpCallLegal(us, id, CompleteOp, rs[0]);
      OpReplay(us, id, CompleteOp, [], rs[0]);
      if rs[0] != Ran(Done) {
        var us' := Replay(us, fx);
        CallsConcat(us, fx, Complete(us', id, rest));
        if rs[0] == Ran(Fatal) {
          if rest != [] {
            OpCallLegal(us', id, CompleteOp, rest[0]);
            CallsConcat(us', OpEffects(us', id, CompleteOp, [], rest[0]),
              Complete(Replay(us', OpEffects(us', id, CompleteOp, [], rest[0])), id, rest[1..]));
            assert FailsEarly(rs);
          }
        } else {
          RetryIsIllegalIff(us', id, rest);
          FailsEarlyTail(rs);
        }
      }
    }
  }

  /** Such a series of attempts. */
  lemma {:induction false} RetryCanBeIllegal()
    ensures var us, rs := [Update("lmp-1", [], Started, 4)], [Ran(Fatal), Ran(Done), Ran(Done), Ran(Done)];
            Inv(us) && !AllCallsLegal(us, Complete(us, 0, rs))
  {
    hide Complete, AllCallsLegal;
    var us, rs := [Update("lmp-1", [], Started, 4)], [Ran(Fatal), Ran(Done), Ran(Done), Ran(Done)];
    RetryIsIllegalIff(us, 0, rs);
    assert rs[0] == Ran(Fatal);
  }

  lemma {:induction false} FailsEarlyTail(rs: seq<OpResult>)
    requires rs != [] && rs[0] != Ran(Done) && rs[0] != Ran(Fatal)
    ensures FailsEarly(rs) <==> FailsEarly(rs[1..])
  {
    var rest := rs[1..];
    if FailsEarly(rs) {
      var i :| 0 <= i < |rs| - 1 && rs[i] == Ran(Fatal) && forall j :: 0 <= j < i ==> rs[j] != Ran(Done);
      assert rest[i - 1] == Ran(Fatal);
    }
    if FailsEarly(rest) {
      var i :| 0 <= i < |rest| - 1 && rest[i] == Ran(Fatal) && forall j :: 0 <= j < i ==> rest[j] != Ran(Done);
      forall j | 0 <= j < i + 1 ensures rs[j] != Ran(Done) {
        if j > 0 { assert rs[j] == rest[j - 1]; }
      }
      assert rs[i + 1] == Ran(Fatal);
    }
  }

  /** All events of one update, over all runs, name one target: the one the update was created for. */
  lemma {:induction false} OneTargetPerUpdate(us: Updates, steps: seq<Step>, n: nat)
    requires Inv(us)
    ensures n < |History(us, steps)| && History(us, steps)[n].Emit? ==>
              var e, end := History(us, steps)[n], Replay(us, History(us, steps));
              e.id < |end| && e.target == end[e.id].ref
  {
    hide Replay, StepsOk, History;
    var fx := History(us, steps);
    if n < |fx| && fx[n].Emit? {
      StepAt(us, steps, n);
      assert fx[..|fx|] == fx;
      NeverBackwards(us, steps, n, |fx|, fx[n].id);
    }
  }

  // The order of events.

  function Phase(kind: Kind, success: Option<bool>): nat {
    match kind
    case InitStarted => 0 case InitCompleted => 0
    case DownloadStarted => 1 case DownloadCompleted => 1
    case InstallationStarted => 2 case InstallationApplied => 2
    case InstallationCompleted => if success == Some(true) then 3 else 2
  }

  /** The two events that report a success are sent right after the operation they report. */
  predicate Prompt(fx: seq<Effect>) {
    forall n :: 0 <= n < |fx| && fx[n].Emit? && fx[n].success == Some(true)
      && (fx[n].kind.InitCompleted? || fx[n].kind.DownloadCompleted?)
      ==> n > 0 && fx[n - 1] == End(fx[n].id, if fx[n].kind.InitCompleted? then InitOp else FetchOp, Done)
  }

  lemma {:induction false} PromptConcat(a: seq<Effect>, b: seq<Effect>)
    requires Prompt(a) && Prompt(b)
    ensures Prompt(a + b)
  {
    var fx := a + b;
    forall n | 0 <= n < |fx| && fx[n].Emit? && fx[n].success == Some(true)
      && (fx[n].kind.InitCompleted? || fx[n].kind.DownloadCompleted?)
      ensures n > 0 && fx[n - 1] == End(fx[n].id, if fx[n].kind.InitCompleted? then InitOp else FetchOp, Done)
    {
      if n >= |a| { assert b[n - |a|] == fx[n]; assert b[n - |a| - 1] == fx[n - 1]; }
    }
  }

  lemma {:induction false} CompleteIsPrompt(us: Updates, id: nat, rs: seq<OpResult>)
    ensures Prompt(Complete(us, id, rs))
    decreases |rs|
  {
    hide Replay, StepsOk;
    if rs != [] {
      var fx := OpEffects(us, id, CompleteOp, [], rs[0]);
      CompleteIsPrompt(Replay(us, fx), id, rs[1..]);
      PromptConcat(fx, Complete(Replay(us, fx), id, rs[1..]));
    }
  }

  lemma {:induction false} StartIsPrompt(c: Ctx, us: Updates, env: Env)
    ensures Prompt(Start(c, us, env).fx)
  {
    hide Replay, StepsOk;
    var id := Id(c);
    var s := StageAt(us, id);
    if PastInstall(s) {
      var fx0 := if Legal(StartOp, s) then OpEffects(us, id, StartOp, [], env.start) else [];
      var ok := !Legal(StartOp, s) || OpSucceeds(us, id, StartOp, env.start);
      var fx1 := if ok then Complete(Replay(us, fx0), id, env.complete) else [];
      CompleteIsPrompt(Replay(us, fx0), id, env.complete);
      PromptConcat(fx0, fx1);
      PromptConcat(fx0 + fx1, [Emit(id, c.to.id, InstallationCompleted, Some(ok))]);
    }
  }

  lemma {:induction false} InitIsPrompt(c: Ctx, us: Updates, env: Env)
    ensures Prompt(Init(c, us, env).fx)
  {
    hide Replay, StepsOk;
    var create := if c.runner.None? then [New(c.to.id)] else [];
    var us0 := Replay(us, create);
    var id := if c.runner.None? then |us| else Id(c);
    if StageAt(us0, id) in {Created, Initializing} {
      var apps := AppsToInit(c, StageAt(us0, id));
      var op := OpEffects(us0, id, InitOp, apps, env.init);
      var fx := op + [Emit(id, c.to.id, InitCompleted, Some(OpSucceeds(us0, id, InitOp, env.init)))];
      assert Prompt(fx);
      PromptConcat(create + [Emit(id, c.to.id, InitStarted, None)], fx);
      assert Init(c, us, env).fx == create + [Emit(id, c.to.id, InitStarted, None)] + fx;
    }
  }

  lemma {:induction false} FetchIsPrompt(c: Ctx, us: Updates, cfg: Config, env: Env)
    ensures Prompt(Fetch(c, us, cfg, env).fx)
  {
  }

  lemma {:induction false} StopIsPrompt(c: Ctx, us: Updates, env: Env)
    ensures Prompt(Stop(c, us, env).fx)
  {
    hide AppsToStop;
  }

  lemma {:induction false} InstallIsPrompt(c: Ctx, us: Updates, env: Env)
    ensures Prompt(Install(c, us, env).fx)
  {
  }

  lemma {:induction false} ExecuteIsPrompt(s: ActionState, c: Ctx, us: Updates, cfg: Config, env: Env)
    ensures Prompt(Execute(s, c, us, cfg, env).fx)
  {
    hide Check, Init, Fetch, Stop, Install, Start;
    FetchIsPrompt(c, us, cfg, env);
    StopIsPrompt(c, us, env);
    InstallIsPrompt(c, us, env);
    match s
    case CheckState(opts) => CheckIsQuiet(opts, c, us, cfg, env);
    case InitState => InitIsPrompt(c, us, env);
    case StartState => StartIsPrompt(c, us, env);
    case FetchState =>
    case StopState =>
    case InstallState =>
  }

  lemma {:induction false} RunIsPrompt(states: seq<ActionState>, c: Ctx, us: Updates, cfg: Config, env: Env)
    ensures Prompt(Run(states, c, us, cfg, env).fx)
    decreases |states|
  {
    hide Execute;
    hide Replay, StepsOk;
    if states != [] {
      var o := Execute(states[0], c, us, cfg, env);
      ExecuteIsPrompt(states[0], c, us, cfg, env);
      if o.err.None? {
        var c' := o.c.(num := o.c.num + 1);
        RunIsPrompt(states[1..], c', Replay(us, o.fx), cfg, env);
        PromptConcat(o.fx, Run(states[1..], c', Replay(us, o.fx), cfg, env).fx);
      }
    }
  }

  lemma {:induction false} HistoryIsPrompt(us: Updates, steps: seq<Step>)
    ensures Prompt(History(us, steps))
  {
    hide Replay, StepsOk;
    if steps != [] {
      var before, s := steps[..|steps| - 1], steps[|steps| - 1];
      HistoryIsPrompt(us, before);
      var now := Replay(us, History(us, before));
      if s.RunStep? { RunIsPrompt(States(s.action), FRESH, now, s.cfg, s.env); }
      PromptConcat(History(us, before), StepEffects(now, s));
    }
  }

  lemma {:induction false} WindowsInOrder(k: Kind, s: Option<bool>, d: nat, k': Kind, s': Option<bool>, d': nat)
    requires Window(k, s, d) && Window(k', s', d') && d <= d' && Phase(k, s) > Phase(k', s')
    ensures s' == Some(true) && (k'.InitCompleted? || k'.DownloadCompleted?) && d == d'
  {
  }

  /** Over all runs, crashes included, the events of one update never go back a phase: initialization,
      download, installation, installation completed. */
  lemma {:induction false} EventsNeverGoBack(us: Updates, steps: seq<Step>, n: nat, m: nat)
    requires Inv(us)
    ensures var fx := History(us, steps);
            n < m < |fx| && fx[n].Emit? && fx[m].Emit? && fx[n].id == fx[m].id ==>
              Phase(fx[n].kind, fx[n].success) <= Phase(fx[m].kind, fx[m].success)
  {
    hide History, Replay, StepsOk;
    var fx := History(us, steps);
    if n < m < |fx| && fx[n].Emit? && fx[m].Emit? && fx[n].id == fx[m].id
      && Phase(fx[n].kind, fx[n].success) > Phase(fx[m].kind, fx[m].success) {
      var e, e' := fx[n], fx[m];
      StepAt(us, steps, n);
      StepAt(us, steps, m);
      NeverBackwards(us, steps, n, m, e.id);
      var d, d' := Moment(us, steps, n)[e.id].done, Moment(us, steps, m)[e.id].done;
      WindowsInOrder(e.kind, e.success, d, e'.kind, e'.success, d');
      HistoryIsPrompt(us, steps);
      JustDone(us, steps, m, e.id);
      NeverBackwards(us, steps, n, m - 1, e.id);
    }
  }

  lemma {:induction false} JustDone(us: Updates, steps: seq<Step>, m: nat, id: nat)
    requires Inv(us) && 0 < m < |History(us, steps)|
    requires var e := History(us, steps)[m - 1]; e.End? && e.id == id && e.outcome.Done?
    ensures DoneAt(Moment(us, steps, m), id) == DoneAt(Moment(us, steps, m - 1), id) + 1
  {
    hide History, Inv, StepOk;
    hide Replay, StepsOk;
    MomentsFollow(us, steps, m - 1, m);
    var e := History(us, steps)[m - 1];
    assert History(us, steps)[m - 1..m] == [e];
    OneStep(Moment(us, steps, m - 1), e);
    DoneStep(Moment(us, steps, m - 1), e, id);
  }
}
