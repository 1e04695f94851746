// The persisted updates and the runner operations on them. Their implementation
// (the composeapp library) is not part of this model: Apply and OpEffects state
// the contract the stages rely on, with every outcome the runner may choose.

module Runner {
  import opened Options

  datatype Stage =
    | Created | Initializing | Initialized | Fetching | Fetched | Installing | Installed
    | Starting | Started | Completing | Completed | Canceled | Failed

  predicate Terminal(s: Stage) {
    s.Completed? || s.Canceled? || s.Failed?
  }

  datatype Op = InitOp | FetchOp | InstallOp | StartOp | CompleteOp

  const OPS: seq<Op> := [InitOp, FetchOp, InstallOp, StartOp, CompleteOp]

  function Before(op: Op): Stage {
    match op
    case InitOp => Created
    case FetchOp => Initialized
    case InstallOp => Fetched
    case StartOp => Installed
    case CompleteOp => Started
  }

  function During(op: Op): Stage {
    match op
    case InitOp => Initializing
    case FetchOp => Fetching
    case InstallOp => Installing
    case StartOp => Starting
    case CompleteOp => Completing
  }

  function After(op: Op): Stage {
    match op
    case InitOp => Initialized
    case FetchOp => Fetched
    case InstallOp => Installed
    case StartOp => Started
    case CompleteOp => Completed
  }

  predicate Legal(op: Op, s: Stage) {
    s == Before(op) || s == During(op)
  }

  /** One recorded update. `done` is a history variable: how many operations have succeeded on it. */
  datatype Update = Update(ref: string, uris: seq<string>, stage: Stage, done: nat)

  type Updates = seq<Update>

  datatype Kind =
    | InitStarted | InitCompleted | DownloadStarted | DownloadCompleted
    | InstallationStarted | InstallationApplied | InstallationCompleted

  datatype Outcome = Done | Error | Fatal

  /** What an operation does when called: refuse before it persists anything, or persist that
      it runs and then end in success, in an error that leaves it running, or in Failed. */
  datatype OpResult = Refused | Ran(outcome: Outcome)

  /** The persistent and observable steps of the agent, in the order they happen. A process
      that dies leaves a prefix of the effects of its run. */
  datatype Effect =
    | New(ref: string)
    | Call(id: nat, op: Op, uris: seq<string>)
    | Mark(id: nat, op: Op, uris: seq<string>)
    | End(id: nat, op: Op, outcome: Outcome)
    | Emit(id: nat, target: string, kind: Kind, success: Option<bool>)
    | StopApps(uris: seq<string>)
    | Cancel(id: nat)

  function StageAt(us: Updates, id: nat): Stage {
    if id < |us| then us[id].stage else Failed
  }

  function DoneAt(us: Updates, id: nat): nat {
    if id < |us| then us[id].done else 0
  }

  function Marked(u: Update, op: Op, uris: seq<string>): Update {
    u.(stage := During(op), uris := if u.stage.Created? then uris else u.uris)
  }

  function Ended(u: Update, op: Op, outcome: Outcome): Update {
    match outcome
    case Done => u.(stage := After(op), done := u.done + 1)
    case Error => u
    case Fatal => u.(stage := Failed)
  }

  function Apply(us: Updates, e: Effect): Updates {
    match e
    case New(ref) => us + [Update(ref, [], Created, 0)]
    case Mark(id, op, uris) => if Legal(op, StageAt(us, id)) then us[id := Marked(us[id], op, uris)] else us
    case End(id, op, outcome) => if Legal(op, StageAt(us, id)) then us[id := Ended(us[id], op, outcome)] else us
    case Cancel(id) => if Terminal(StageAt(us, id)) then us else us[id := us[id].(stage := Canceled)]
    case _ => us
  }

  function Replay(us: Updates, fx: seq<Effect>): Updates {
    if fx == [] then us else Apply(Replay(us, fx[..|fx| - 1]), fx[|fx| - 1])
  }

  /** The effects of calling one operation on update `id`. Outside its two legal stages the runner
      returns an error and changes nothing. */
  function OpEffects(us: Updates, id: nat, op: Op, uris: seq<string>, r: OpResult): seq<Effect> {
    if Legal(op, StageAt(us, id)) && r.Ran? then [Call(id, op, uris), Mark(id, op, uris), End(id, op, r.outcome)]
    else [Call(id, op, uris), End(id, op, Error)]
  }

  predicate OpSucceeds(us: Updates, id: nat, op: Op, r: OpResult) {
    Legal(op, StageAt(us, id)) && r == Ran(Done)
  }

  function Ran1(u: Update, op: Op, uris: seq<string>, r: OpResult): Update {
    if r.Ran? then Ended(Marked(u, op, uris), op, r.outcome) else u
  }

  // Which update is current, last successful, failed.

  /** GetCurrentUpdate: the update that has not ended, which can only be the newest one. */
  function Current(us: Updates): Option<nat> {
    if us != [] && !Terminal(us[|us| - 1].stage) then Some(|us| - 1) else None
  }

  /** GetLastSuccessfulUpdate. */
  function LastSuccess(us: Updates): (r: Option<Update>)
    ensures r.Some? ==> r.value in us && r.value.stage.Completed?
  {
    if us == [] then None
    else if us[|us| - 1].stage.Completed? then Some(us[|us| - 1])
    else LastSuccess(us[..|us| - 1])
  }

  /** CountFailedUpdates. */
  function CountFailed(us: Updates, ref: string): nat {
    if us == [] then 0
    else CountFailed(us[..|us| - 1], ref)
         + (if us[|us| - 1].stage.Failed? && us[|us| - 1].ref == ref then 1 else 0)
  }

  // Well-placed effects and the invariant they keep.

  function Rank(s: Stage): nat {
    match s
    case Created => 0 case Initializing => 0
    case Initialized => 1 case Fetching => 1
    case Fetched => 2 case Installing => 2
    case Installed => 3 case Starting => 3
    case Started => 4 case Completing => 4
    case Completed => 5
    case Canceled => 0 case Failed => 0
  }

  predicate Consistent(u: Update) {
    && (!u.stage.Canceled? && !u.stage.Failed? ==> u.done == Rank(u.stage))
    && (u.stage.Canceled? || u.stage.Failed? ==> u.done <= 4)
    && (u.stage.Created? ==> u.uris == [])
  }

  /** Every record is consistent and all but the newest have ended. */
  predicate Inv(us: Updates) {
    && (forall i :: 0 <= i < |us| ==> Consistent(us[i]))
    && (forall i :: 0 <= i < |us| - 1 ==> Terminal(us[i].stage))
  }

  /** How many operations must have succeeded on an update when this event is sent for it. */
  predicate Window(kind: Kind, success: Option<bool>, done: nat) {
    match kind
    case InitStarted => success.None? && done == 0
    case InitCompleted => success == Some(done == 1) && done <= 1
    case DownloadStarted => success.None? && done == 1
    case DownloadCompleted => success == Some(done == 2) && 1 <= done <= 2
    case InstallationStarted => success.None? && done == 2
    case InstallationApplied => success.None? && done == 3
    case InstallationCompleted => success == Some(done >= 4) && done >= 2
  }

  predicate StepOk(us: Updates, e: Effect) {
    var last := |us| - 1;
    match e
    case New(_) => us == [] || Terminal(us[last].stage)
    case Call(id, op, _) => id == last && (Legal(op, us[id].stage) || RetryAfterFailure(us[id], op))
    case Mark(id, op, _) => id == last && Legal(op, us[id].stage)
    case End(id, op, outcome) =>
      id == last && (Legal(op, us[id].stage) || (outcome.Error? && RetryAfterFailure(us[id], op)))
    case Emit(id, target, kind, success) => id == last && target == us[id].ref && Window(kind, success, us[id].done)
    case StopApps(uris) => last >= 0 && Legal(InstallOp, us[last].stage) && uris != []
    case Cancel(id) => id == last && !Terminal(us[id].stage)
  }

  /** The one call outside the legal stages: completion tried again after a try that failed the update. */
  predicate RetryAfterFailure(u: Update, op: Op) {
    op.CompleteOp? && u.stage.Failed? && u.done == 4
  }

  predicate StepsOk(us: Updates, fx: seq<Effect>) {
    fx == [] || (StepsOk(us, fx[..|fx| - 1]) && StepOk(Replay(us, fx[..|fx| - 1]), fx[|fx| - 1]))
  }

  lemma {:induction false} ApplyKeepsInv(us: Updates, e: Effect)
    requires Inv(us) && StepOk(us, e)
    ensures Inv(Apply(us, e)) && |us| <= |Apply(us, e)|
  {
    var us' := Apply(us, e);
    if e.Mark? || e.End? || e.Cancel? {
      assert us' == us[..e.id] + [us'[e.id]];
      assert Consistent(us[e.id]);
      assert Consistent(us'[e.id]);
    }
  }

  lemma {:induction false} ReplayKeepsInv(us: Updates, fx: seq<Effect>)
    requires Inv(us) && StepsOk(us, fx)
    ensures Inv(Replay(us, fx)) && |us| <= |Replay(us, fx)|
  {
    if fx != [] {
      ReplayKeepsInv(us, fx[..|fx| - 1]);
      ApplyKeepsInv(Replay(us, fx[..|fx| - 1]), fx[|fx| - 1]);
    }
  }

  lemma {:induction false} ReplayConcat(us: Updates, a: seq<Effect>, b: seq<Effect>)
    ensures Replay(us, a + b) == Replay(Replay(us, a), b)
  {
    if b == [] {
      assert a + b == a;
    } else {
      ReplayConcat(us, a, b[..|b| - 1]);
      assert (a + b)[..|a + b| - 1] == a + b[..|b| - 1];
    }
  }

  lemma {:induction false} StepsConcat(us: Updates, a: seq<Effect>, b: seq<Effect>)
    requires StepsOk(us, a) && StepsOk(Replay(us, a), b)
    ensures StepsOk(us, a + b)
  {
    hide StepOk, Replay;
    if b == [] {
      assert a + b == a;
    } else {
      StepsConcat(us, a, b[..|b| - 1]);
      ReplayConcat(us, a, b[..|b| - 1]);
      assert (a + b)[..|a + b| - 1] == a + b[..|b| - 1];
    }
  }

  lemma {:induction false} StepsPrefix(us: Updates, fx: seq<Effect>, n: nat)
    requires StepsOk(us, fx) && n <= |fx|
    ensures StepsOk(us, fx[..n])
  {
    if n < |fx| {
      StepsPrefix(us, fx[..|fx| - 1], n);
      assert fx[..|fx| - 1][..n] == fx[..n];
    } else {
      assert fx[..n] == fx;
    }
  }

  lemma {:induction false} NoSteps(us: Updates)
    ensures Replay(us, []) == us && StepsOk(us, [])
  {
  }

  lemma {:induction false} OneStep(us: Updates, e: Effect)
    ensures Replay(us, [e]) == Apply(us, e)
    ensures StepsOk(us, [e]) <==> StepOk(us, e)
  {
    assert [e][..0] == [];
    assert Replay(us, []) == us;
  }

  /** What one operation call leaves behind, in closed form. */
  lemma {:induction false} OpReplay(us: Updates, id: nat, op: Op, uris: seq<string>, r: OpResult)
    requires id < |us|
    ensures var us' := Replay(us, OpEffects(us, id, op, uris, r));
            us' == if Legal(op, us[id].stage) then us[id := Ran1(us[id], op, uris, r)] else us
  {
    hide Replay, StepsOk;
    var c, m := Call(id, op, uris), Mark(id, op, uris);
    var e := if r.Ran? then End(id, op, r.outcome) else End(id, op, Error);
    OneStep(us, c);
    if Legal(op, us[id].stage) && r.Ran? {
      ReplayConcat(us, [c], [m]);
      OneStep(us, m);
      ReplayConcat(us, [c] + [m], [e]);
      OneStep(Apply(us, m), e);
      assert [c] + [m] + [e] == OpEffects(us, id, op, uris, r);
    } else {
      ReplayConcat(us, [c], [End(id, op, Error)]);
      OneStep(us, End(id, op, Error));
      assert [c] + [End(id, op, Error)] == OpEffects(us, id, op, uris, r);
    }
  }

  lemma {:induction false} TwoSteps(us: Updates, a: Effect, b: Effect)
    requires StepOk(us, a) && StepOk(Apply(us, a), b)
    ensures StepsOk(us, [a, b])
  {
    hide Replay, StepsOk;
    OneStep(us, a);
    OneStep(Apply(us, a), b);
    StepsConcat(us, [a], [b]);
    assert [a] + [b] == [a, b];
  }

  lemma {:induction false} ThreeSteps(us: Updates, a: Effect, b: Effect, c: Effect)
    requires StepOk(us, a) && StepOk(Apply(us, a), b) && StepOk(Apply(Apply(us, a), b), c)
    ensures StepsOk(us, [a, b, c])
  {
    hide Replay, StepsOk;
    OneStep(us, a);
    TwoSteps(Apply(us, a), b, c);
    StepsConcat(us, [a], [b, c]);
    assert [a] + [b, c] == [a, b, c];
  }

  lemma {:induction false} OpStepsOk(us: Updates, op: Op, uris: seq<string>, r: OpResult)
    requires us != []
    requires Legal(op, us[|us| - 1].stage) || RetryAfterFailure(us[|us| - 1], op)
    ensures StepsOk(us, OpEffects(us, |us| - 1, op, uris, r))
  {
    hide Replay, StepsOk;
    var id := |us| - 1;
    if Legal(op, us[id].stage) && r.Ran? {
      ThreeSteps(us, Call(id, op, uris), Mark(id, op, uris), End(id, op, r.outcome));
    } else {
      TwoSteps(us, Call(id, op, uris), End(id, op, Error));
    }
  }

  // What well-placed effects imply, whatever produced them.

  /** The operations that end in success on one update. */
  function Successes(fx: seq<Effect>, id: nat): seq<Op> {
    if fx == [] then [] else
      var e := fx[|fx| - 1];
      Successes(fx[..|fx| - 1], id) + (if e.End? && e.id == id && e.outcome.Done? then [e.op] else [])
  }

  lemma {:induction false} DoneStep(us: Updates, e: Effect, id: nat)
    requires Inv(us) && StepOk(us, e)
    ensures DoneAt(us, id) <= DoneAt(Apply(us, e), id) <= 5
    ensures OPS[DoneAt(us, id)..DoneAt(Apply(us, e), id)]
            == if e.End? && e.id == id && e.outcome.Done? then [e.op] else []
  {
    if id < |us| { assert Consistent(us[id]); }
    ApplyKeepsInv(us, e);
    if id < |Apply(us, e)| { assert Consistent(Apply(us, e)[id]); }
  }

  /** Exactly the operations counted by `done` have succeeded, in their order. */
  lemma {:induction false} SuccessesAreDone(us: Updates, fx: seq<Effect>, id: nat)
    requires Inv(us) && StepsOk(us, fx)
    ensures DoneAt(us, id) <= DoneAt(Replay(us, fx), id) <= 5
    ensures Successes(fx, id) == OPS[DoneAt(us, id)..DoneAt(Replay(us, fx), id)]
  {
    if fx == [] {
      if id < |us| { assert Consistent(us[id]); }
    } else {
      var pre, e := fx[..|fx| - 1], fx[|fx| - 1];
      SuccessesAreDone(us, pre, id);
      ReplayKeepsInv(us, pre);
      DoneStep(Replay(us, pre), e, id);
    }
  }

  lemma {:induction false} DoneIsRank(us: Updates, id: nat)
    requires Inv(us) && id < |us|
    ensures us[id].done <= |OPS| && (us[id].stage.Completed? <==> us[id].done == |OPS|)
  {
    assert Consistent(us[id]);
  }

  function Position(s: Stage): nat {
    match s
    case Created => 0 case Initializing => 1 case Initialized => 2 case Fetching => 3
    case Fetched => 4 case Installing => 5 case Installed => 6 case Starting => 7
    case Started => 8 case Completing => 9 case Completed => 10
    case Canceled => 11 case Failed => 11
  }

  /** No step back, and nothing moves once the update has ended. */
  predicate Forward(s: Stage, s': Stage) {
    s == s' || (!Terminal(s) && Position(s) < Position(s'))
  }

  predicate SameUpdate(u: Update, u': Update) {
    && u'.ref == u.ref
    && Forward(u.stage, u'.stage)
    && u.done <= u'.done
    && (!u.stage.Created? ==> u'.uris == u.uris)
  }

  lemma {:induction false} ForwardStep(us: Updates, e: Effect, id: nat)
    requires StepOk(us, e) && id < |us|
    ensures id < |Apply(us, e)| && SameUpdate(us[id], Apply(us, e)[id])
  {
    if e.Mark? || e.End? || e.Cancel? {
      if e.id == id {
        assert Apply(us, e)[id] == (if e.Mark? then Marked(us[id], e.op, e.uris)
                                    else if e.Cancel? then us[id].(stage := Canceled)
                                    else if Legal(e.op, us[id].stage) then Ended(us[id], e.op, e.outcome) else us[id]);
      }
    }
  }

  lemma {:induction false} OnlyForward(us: Updates, fx: seq<Effect>, id: nat)
    requires StepsOk(us, fx) && id < |us|
    ensures id < |Replay(us, fx)| && SameUpdate(us[id], Replay(us, fx)[id])
  {
    if fx != [] {
      OnlyForward(us, fx[..|fx| - 1], id);
      ForwardStep(Replay(us, fx[..|fx| - 1]), fx[|fx| - 1], id);
    }
  }
}
