// The event grammar of one update in histories whose runs all end by themselves.

module Grammar {
  import opened Options
  import opened Targets
  import opened Runner
  import opened Stages
  import opened Histories
  import opened Safety

  /** Where the event sequence of one update stands:
      (InitStarted InitCompleted-fail)* InitStarted InitCompleted-ok
      (DownloadStarted DownloadCompleted-fail)* DownloadStarted DownloadCompleted-ok
      (InstallationStarted InstallationCompleted-fail)* InstallationStarted InstallationApplied
      (InstallationCompleted-fail)* InstallationCompleted-ok+ */
  datatype Place = Idle | Initing | Inited | Downloading | Downloaded | Stopping | Applied | Finished | Bad

  function Next(g: Place, kind: Kind, success: Option<bool>): Place {
    match (g, kind, success)
    case (Idle, InitStarted, None) => Initing
    case (Initing, InitCompleted, Some(ok)) => if ok then Inited else Idle
    case (Inited, DownloadStarted, None) => Downloading
    case (Downloading, DownloadCompleted, Some(ok)) => if ok then Downloaded else Inited
    case (Downloaded, InstallationStarted, None) => Stopping
    case (Stopping, InstallationCompleted, Some(false)) => Downloaded
    case (Stopping, InstallationApplied, None) => Applied
    case (Applied, InstallationCompleted, Some(ok)) => if ok then Finished else Applied
    case (Finished, InstallationCompleted, Some(true)) => Finished
    case _ => Bad
  }

  /** The place reached from g by the events of one update. */
  function Read(g: Place, fx: seq<Effect>, id: nat): Place {
    if fx == [] then g else
      var e := fx[|fx| - 1];
      var g' := Read(g, fx[..|fx| - 1], id);
      if e.Emit? && e.id == id then Next(g', e.kind, e.success) else g'
  }

  lemma {:induction false} ReadConcat(g: Place, a: seq<Effect>, b: seq<Effect>, id: nat)
    ensures Read(g, a + b, id) == Read(Read(g, a, id), b, id)
  {
    if b == [] {
      assert a + b == a;
    } else {
      ReadConcat(g, a, b[..|b| - 1], id);
      assert (a + b)[..|a + b| - 1] == a + b[..|b| - 1];
    }
  }

  lemma {:induction false} ReadQuiet(g: Place, fx: seq<Effect>, id: nat)
    requires forall i :: 0 <= i < |fx| ==> !(fx[i].Emit? && fx[i].id == id)
    ensures Read(g, fx, id) == g
  {
    if fx != [] { ReadQuiet(g, fx[..|fx| - 1], id); }
  }

  lemma {:induction false} ReadNone(g: Place, id: nat)
    ensures Read(g, [], id) == g
  {
  }

  lemma {:induction false} ReadOne(g: Place, e: Effect, id: nat)
    ensures Read(g, [e], id) == if e.Emit? && e.id == id then Next(g, e.kind, e.success) else g
  {
    assert [e][..0] == [];
    ReadNone(g, id);
  }

  function Expected(done: nat): Place {
    match done
    case 0 => Idle
    case 1 => Inited
    case 2 => Downloaded
    case 3 => Applied
    case _ => Finished
  }

  /** What has been sent for an update agrees with what has been done on it; nothing has been sent for later ones. */
  predicate Fits(us: Updates, id: nat, g: Place) {
    && g != Bad
    && (id < |us| && !Terminal(us[id].stage) ==> g == Expected(us[id].done))
    && (id >= |us| ==> g == Idle)
  }

  /** Every Stop is followed at once by Install, which occurs nowhere else. */
  predicate Paired(states: seq<ActionState>) {
    states == [] ||
    (if states[0].StopState? then |states| >= 2 && states[1].InstallState? && Paired(states[2..])
     else !states[0].InstallState? && Paired(states[1..]))
  }

  lemma {:induction false} ActionsArePaired(a: Action)
    ensures Paired(States(a))
  {
    var s := States(a);
    assert s[1..][1..] == s[2..] && s[2..][1..] == s[3..];
    if |s| > 3 {
      assert s[3..][2..] == s[5..] && s[3..][0] == s[3] && s[3..][1] == s[4];
      if |s| > 5 { assert s[5..][1..] == []; }
      assert Paired(s[5..]);
    }
    assert Paired(s[3..]);
    assert Paired(s[2..]);
  }

  // Stage by stage, on the update that is driven.

  lemma {:induction false} ReadBracket(g: Place, us: Updates, id: nat, op: Op, uris: seq<string>, r: OpResult,
                                       first: seq<Effect>, last: Effect)
    requires last.Emit? && last.id == id
    ensures Read(g, first + OpEffects(us, id, op, uris, r) + [last], id)
            == Next(Read(g, first, id), last.kind, last.success)
  {
    hide Replay, StepsOk, Read;
    NoSteps(us);
    ReadNone(g, id);
    var fx := OpEffects(us, id, op, uris, r);
    ReadConcat(g, first + fx, [last], id);
    ReadConcat(g, first, fx, id);
    ReadQuiet(Read(g, first, id), fx, id);
    ReadOne(Read(g, first, id), last, id);
  }

  lemma {:induction false} InitShape(c: Ctx, us: Updates, env: Env)
    requires c.runner.Some?
    ensures !Legal(InitOp, StageAt(us, Id(c))) ==> Init(c, us, env).fx == []
    ensures Legal(InitOp, StageAt(us, Id(c))) ==> 
              Init(c, us, env).fx == [Emit(Id(c), c.to.id, InitStarted, None)]
                                     + OpEffects(us, Id(c), InitOp, AppsToInit(c, StageAt(us, Id(c))), env.init)
                                     + [Emit(Id(c), c.to.id, InitCompleted,
                                             Some(OpSucceeds(us, Id(c), InitOp, env.init)))]
  {
    var id := Id(c);
    NoSteps(us);
    var apps := AppsToInit(c, StageAt(us, id));
    var fx := [Emit(id, c.to.id, InitStarted, None)] + OpEffects(us, id, InitOp, apps, env.init)
              + [Emit(id, c.to.id, InitCompleted, Some(OpSucceeds(us, id, InitOp, env.init)))];
    assert Legal(InitOp, StageAt(us, id)) ==> Init(c, us, env).fx == fx;
  }

  lemma {:induction false} InitReads(c: Ctx, us: Updates, env: Env, g: Place)
    requires Inv(us) && Drives(c, us, 0) && Fits(us, |us| - 1, g)
    ensures Fits(Replay(us, Init(c, us, env).fx), |us| - 1, Read(g, Init(c, us, env).fx, |us| - 1))
  {
    hide Replay, StepsOk, Read;
    NoSteps(us);
    ReadNone(g, |us| - 1);
    InitResumed(c, us, env);
    var id := |us| - 1;
    var u, u' := us[id], AfterInit(us[id], c, env);
    InitShape(c, us, env);
    hide Init;
    if Legal(InitOp, u.stage) {
      var apps := AppsToInit(c, u.stage);
      var first := Emit(id, c.to.id, InitStarted, None);
      ReadBracket(g, us, id, InitOp, apps, env.init, [first],
        Emit(id, c.to.id, InitCompleted, Some(OpSucceeds(us, id, InitOp, env.init))));
      ReadOne(g, first, id);
      assert g == Idle;
      assert !Terminal(u'.stage) ==> u'.done == if OpSucceeds(us, id, InitOp, env.init) then 1 else 0;
    }
  }

  lemma {:induction false} FetchReads(c: Ctx, us: Updates, cfg: Config, env: Env, g: Place)
    requires Inv(us) && Drives(c, us, 1) && Fits(us, |us| - 1, g)
    ensures Fits(Replay(us, Fetch(c, us, cfg, env).fx), |us| - 1, Read(g, Fetch(c, us, cfg, env).fx, |us| - 1))
  {
    hide Replay, StepsOk, Read;
    NoSteps(us);
    ReadNone(g, |us| - 1);
    var id := |us| - 1;
    if Legal(FetchOp, us[id].stage) {
      DownloadLeaves(c, us, cfg, env);
      var first := Emit(id, c.to.id, DownloadStarted, None);
      ReadOne(g, first, id);
      if NoSpace(cfg, env) {
        var last := Emit(id, c.to.id, DownloadCompleted, Some(false));
        ReadConcat(g, [first], [last], id);
        ReadOne(Downloading, last, id);
        assert [first] + [last] == Download(c, us, cfg, env).fx;
      } else {
        ReadBracket(g, us, id, FetchOp, [], env.fetch, [first],
          Emit(id, c.to.id, DownloadCompleted, Some(OpSucceeds(us, id, FetchOp, env.fetch))));
      }
    }
  }

  lemma {:induction false} StopReads(c: Ctx, us: Updates, env: Env, g: Place)
    requires Inv(us) && Drives(c, us, 1) && Fits(us, |us| - 1, g)
    ensures var o := Stop(c, us, env);
            Read(g, o.fx, |us| - 1) == if Legal(InstallOp, us[|us| - 1].stage) && o.err.None? then Stopping else g
  {
    hide Replay, StepsOk, Read;
    NoSteps(us);
    ReadNone(g, |us| - 1);
    var id := |us| - 1;
    if Legal(InstallOp, us[id].stage) {
      var apps := AppsToStop(c);
      var started := Emit(id, c.to.id, InstallationStarted, None);
      var failed := Emit(id, c.to.id, InstallationCompleted, Some(false));
      var stops := if apps == [] then [] else [StopApps(Uris(apps))];
      ReadOne(g, started, id);
      ReadConcat(g, [started], stops, id);
      ReadQuiet(Stopping, stops, id);
      ReadConcat(g, [started] + stops, [failed], id);
      ReadOne(Stopping, failed, id);
    }
  }

  lemma {:induction false} InstallReads(c: Ctx, us: Updates, env: Env, g: Place)
    requires Inv(us) && Drives(c, us, 2)
    requires g == (if Legal(InstallOp, us[|us| - 1].stage) then Stopping else Expected(us[|us| - 1].done))
    ensures Fits(Replay(us, Install(c, us, env).fx), |us| - 1, Read(g, Install(c, us, env).fx, |us| - 1))
  {
    hide Replay, StepsOk, Read;
    NoSteps(us);
    ReadNone(g, |us| - 1);
    var id := |us| - 1;
    if Legal(InstallOp, us[id].stage) {
      var ok := OpSucceeds(us, id, InstallOp, env.install);
      var last := if ok then Emit(id, c.to.id, InstallationApplied, None)
                  else Emit(id, c.to.id, InstallationCompleted, Some(false));
      BracketOk(us, InstallOp, [], env.install, c.to.id, [], last);
      ReadBracket(g, us, id, InstallOp, [], env.install, [], last);
      var fx := OpEffects(us, id, InstallOp, [], env.install);
      assert [] + fx == fx;
    }
  }

  lemma {:induction false} QuietComplete(us: Updates, id: nat, rs: seq<OpResult>)
    ensures forall i :: 0 <= i < |Complete(us, id, rs)| ==> !Complete(us, id, rs)[i].Emit?
    decreases |rs|
  {
    hide Replay, StepsOk, Read;
    if rs != [] { QuietComplete(Replay(us, OpEffects(us, id, CompleteOp, [], rs[0])), id, rs[1..]); }
  }

  lemma {:induction false} StartEffectsRead(us: Updates, id: nat, env: Env, target: string, ok: bool, g: Place)
    ensures Read(g, StartEffects(us, id, env) + [Emit(id, target, InstallationCompleted, Some(ok))], id)
            == Next(g, InstallationCompleted, Some(ok))
  {
    hide Replay, StepsOk, Read;
    ReadNone(g, id);
    var fx, last := StartEffects(us, id, env), Emit(id, target, InstallationCompleted, Some(ok));
    QuietComplete(Replay(us, LaunchEffects(us, id, env)), id, env.complete);
    ReadQuiet(g, fx, id);
    ReadConcat(g, fx, [last], id);
    ReadOne(g, last, id);
  }

  lemma {:induction false} FitsAfterStart(us: Updates, u: Update, g: Place, ok: bool)
    requires us != [] && Fits(us, |us| - 1, g)
    requires Consistent(us[|us| - 1]) && PastInstall(us[|us| - 1].stage)
    requires !Terminal(u.stage) ==> u.done == if ok then 4 else 3
    requires Legal(CompleteOp, us[|us| - 1].stage) ==> ok
    ensures Fits(us[|us| - 1 := u], |us| - 1, Next(g, InstallationCompleted, Some(ok)))
  {
  }

  lemma {:induction false} StartReads(c: Ctx, us: Updates, env: Env, g: Place)
    requires Inv(us) && Drives(c, us, 1) && Fits(us, |us| - 1, g)
    ensures Fits(Replay(us, Start(c, us, env).fx), |us| - 1, Read(g, Start(c, us, env).fx, |us| - 1))
  {
    hide Replay, StepsOk, Read, StartEffects, AfterStart, Launched, Fits;
    var id := |us| - 1;
    assert Consistent(us[id]);
    if PastInstall(us[id].stage) {
      StartShape(c, us, env);
      StartRuns(c, us, env);
      hide Start;
      var ok := Legal(CompleteOp, Launched(us[id], env).stage);
      StartEffectsRead(us, id, env, c.to.id, ok, g);
      StartDone(us[id], env);
      FitsAfterStart(us, AfterStart(us[id], env), g, ok);
    } else {
      NoSteps(us);
      ReadNone(g, id);
    }
  }

  /** How much has been done on an update that Start leaves open. */
  lemma {:induction false} StartDone(u: Update, env: Env)
    requires Consistent(u) && PastInstall(u.stage)
    ensures var u', ok := AfterStart(u, env), Legal(CompleteOp, Launched(u, env).stage);
            !Terminal(u'.stage) ==> u'.done == if ok then 4 else 3
    ensures Legal(CompleteOp, u.stage) ==> Legal(CompleteOp, Launched(u, env).stage)
  {
    var started, u' := Launched(u, env), AfterStart(u, env);
    if Legal(CompleteOp, started.stage) && !Terminal(u'.stage) { CompletedDone(started, env.complete); }
  }

  lemma {:induction false} CompletedDone(u: Update, rs: seq<OpResult>)
    requires !Terminal(AfterAttempts(u, rs).stage)
    ensures AfterAttempts(u, rs).done == u.done
    decreases |rs|
  {
    if rs != [] && Legal(CompleteOp, u.stage) { CompletedDone(Ran1(u, CompleteOp, [], rs[0]), rs[1..]); }
  }

  // Other updates: their events and their stages are left alone.

  predicate Only(fx: seq<Effect>, id: nat) {
    forall i :: 0 <= i < |fx| ==>
      match fx[i]
      case New(_) => false
      case Emit(j, _, _, _) => j == id
      case Mark(j, _, _) => j == id
      case End(j, _, _) => j == id
      case Cancel(j) => j == id
      case _ => true
  }

  lemma {:induction false} OthersAlone(us: Updates, fx: seq<Effect>, id: nat, other: nat, g: Place)
    requires Only(fx, id) && other != id && id < |us|
    ensures |Replay(us, fx)| == |us| && (other < |us| ==> Replay(us, fx)[other] == us[other])
    ensures Read(g, fx, other) == g
  {
    if fx != [] { OthersAlone(us, fx[..|fx| - 1], id, other, g); }
  }

  lemma {:induction false} OnlyComplete(us: Updates, id: nat, rs: seq<OpResult>)
    ensures Only(Complete(us, id, rs), id)
    decreases |rs|
  {
    hide Replay, StepsOk, Read;
    if rs != [] { OnlyComplete(Replay(us, OpEffects(us, id, CompleteOp, [], rs[0])), id, rs[1..]); }
  }

  lemma {:induction false} OnlyStart(c: Ctx, us: Updates, env: Env)
    ensures Only(Start(c, us, env).fx, Id(c))
  {
    hide Replay, StepsOk, Read;
    NoSteps(us);
    if Legal(StartOp, StageAt(us, Id(c))) {
      OnlyComplete(Replay(us, OpEffects(us, Id(c), StartOp, [], env.start)), Id(c), env.complete);
    } else {
      OnlyComplete(us, Id(c), env.complete);
    }
  }

  lemma {:induction false} OnlyInit(c: Ctx, us: Updates, env: Env)
    requires c.runner.Some?
    ensures Only(Init(c, us, env).fx, Id(c))
  {
    hide Replay;
    NoSteps(us);
  }

  lemma {:induction false} OnlyStop(c: Ctx, us: Updates, env: Env)
    ensures Only(Stop(c, us, env).fx, Id(c))
  {
    hide AppsToStop;
  }

  lemma {:induction false} OnlyInstall(c: Ctx, us: Updates, env: Env)
    ensures Only(Install(c, us, env).fx, Id(c))
  {
  }

  lemma {:induction false} OnlyFetch(c: Ctx, us: Updates, cfg: Config, env: Env)
    ensures Only(Fetch(c, us, cfg, env).fx, Id(c))
  {
  }

  lemma {:induction false} OnlyDriven(s: ActionState, c: Ctx, us: Updates, cfg: Config, env: Env)
    requires !s.CheckState? && c.runner.Some?
    ensures Only(Execute(s, c, us, cfg, env).fx, Id(c))
  {
    hide Init, Fetch, Stop, Install, Start, Only;
    OnlyInit(c, us, env);
    OnlyStop(c, us, env);
    OnlyInstall(c, us, env);
    OnlyFetch(c, us, cfg, env);
    OnlyStart(c, us, env);
  }

  // Whole runs and histories.

  lemma {:induction false} StageFits(
    s: ActionState, level: nat, c: Ctx, us: Updates, cfg: Config, env: Env, id: nat, g: Place)
    requires Inv(us) && At(level, c, us) && 2 <= level < 5 && Fits(us, id, g)
    requires s.FetchState? || s.StartState?
    ensures var o := Execute(s, c, us, cfg, env); Fits(Replay(us, o.fx), id, Read(g, o.fx, id))
  {
    hide Replay, StepsOk, Read;
    NoSteps(us);
    ReadNone(g, id);
    if id == |us| - 1 {
      if s.FetchState? { FetchReads(c, us, cfg, env, g); } else { StartReads(c, us, env, g); }
    } else {
      OnlyDriven(s, c, us, cfg, env);
      OthersAlone(us, Execute(s, c, us, cfg, env).fx, |us| - 1, id, g);
    }
  }

  lemma {:induction false} StopFits(c: Ctx, us: Updates, env: Env, id: nat, g: Place)
    requires Inv(us) && Drives(c, us, 1) && Fits(us, id, g)
    ensures var o, g' := Stop(c, us, env), Read(g, Stop(c, us, env).fx, id);
            g' == if id == |us| - 1 && Legal(InstallOp, us[id].stage) && o.err.None? then Stopping else g
  {
    hide Replay, StepsOk, Read;
    NoSteps(us);
    ReadNone(g, id);
    if id == |us| - 1 {
      StopReads(c, us, env, g);
    } else {
      OnlyDriven(StopState, c, us, Config(None, 0, 1), env);
      OthersAlone(us, Stop(c, us, env).fx, |us| - 1, id, g);
    }
  }

  lemma {:induction false} InstallFits(c: Ctx, us: Updates, env: Env, id: nat, g: Place)
    requires Inv(us) && Drives(c, us, 2)
    requires if id == |us| - 1 && Legal(InstallOp, us[id].stage) then g == Stopping else Fits(us, id, g)
    ensures var o := Install(c, us, env); Fits(Replay(us, o.fx), id, Read(g, o.fx, id))
  {
    hide Replay, StepsOk, Read;
    NoSteps(us);
    ReadNone(g, id);
    if id == |us| - 1 {
      InstallReads(c, us, env, g);
    } else {
      OnlyDriven(InstallState, c, us, Config(None, 0, 1), env);
      OthersAlone(us, Install(c, us, env).fx, |us| - 1, id, g);
    }
  }

  lemma {:induction false} RunGoesOn(
    states: seq<ActionState>, c: Ctx, us: Updates, cfg: Config, env: Env, id: nat, g: Place)
    requires states != []
    ensures var o := Execute(states[0], c, us, cfg, env);
            var us', rest := Replay(us, o.fx), Run(states[1..], o.c.(num := o.c.num + 1), Replay(us, o.fx), cfg, env);
            var all := Run(states, c, us, cfg, env);
            && (o.err.Some? ==> all == o)
            && (o.err.None? ==> all.fx == o.fx + rest.fx && all.err == rest.err && all.c == rest.c
                                && Replay(us, all.fx) == Replay(us', rest.fx)
                                && Read(g, all.fx, id) == Read(Read(g, o.fx, id), rest.fx, id))
  {
    hide Replay, StepsOk, Read, Execute, Run;
    RunByStages(states, c, us, cfg, env);
    var o := Execute(states[0], c, us, cfg, env);
    if o.err.None? {
      var rest := Run(states[1..], o.c.(num := o.c.num + 1), Replay(us, o.fx), cfg, env);
      ReplayConcat(us, o.fx, rest.fx);
      ReadConcat(g, o.fx, rest.fx, id);
    }
  }

  lemma {:induction false} NumIsFree(level: nat, c: Ctx, us: Updates, num: nat)
    requires At(level, c, us)
    ensures At(level, c.(num := num), us)
  {
  }

  lemma {:induction false} AtDrives(level: nat, c: Ctx, us: Updates)
    requires At(level, c, us) && 2 <= level < 5
    ensures Drives(c, us, 1)
  {
  }

  /** The stages after Init: what is sent for every update keeps agreeing with what is done on it. */
  lemma {:induction false} StagesRead(
    states: seq<ActionState>, level: nat, c: Ctx, us: Updates, cfg: Config, env: Env, id: nat, g: Place)
    requires Inv(us) && 2 <= level && At(level, c, us)
    requires Ordered(states, level) && Paired(states) && !(InitState in states)
    requires Fits(us, id, g)
    ensures var o := Run(states, c, us, cfg, env); Fits(Replay(us, o.fx), id, Read(g, o.fx, id))
    decreases |states|
  {
    hide Replay, StepsOk, Read, Execute, Run, Stop, At, Drives, Inv, Fits;
    NoSteps(us);
    ReadNone(g, id);
    ExecuteIs(c, us, cfg, env);
    if states == [] {
      RunNone(c, us, cfg, env);
    } else {
      AtDrives(level, c, us);
      var s := states[0];
      var o := Execute(s, c, us, cfg, env);
      ExecuteLeaves(s, level, c, us, cfg, env);
      ReplayKeepsInv(us, o.fx);
      RunGoesOn(states, c, us, cfg, env, id, g);
      if s.StopState? {
        StopLeaves(c, us, env);
        StopFits(c, us, env, id, g);
        if o.err.None? { AfterStop(states, level, c, us, cfg, env, id, g); }
      } else {
        StageFits(s, level, c, us, cfg, env, id, g);
        if o.err.None? {
          NumIsFree(Max(level, Gives(s)), o.c, Replay(us, o.fx), o.c.num + 1);
          StagesRead(states[1..], Max(level, Gives(s)), o.c.(num := o.c.num + 1), Replay(us, o.fx), cfg, env, id,
            Read(g, o.fx, id));
        }
      }
    }
  }

  lemma {:induction false} AfterStop(
    states: seq<ActionState>, level: nat, c: Ctx, us: Updates, cfg: Config, env: Env, id: nat, g: Place)
    requires Inv(us) && 2 <= level && At(level, c, us)
    requires Ordered(states, level) && Paired(states) && !(InitState in states)
    requires Fits(us, id, g) && states != [] && states[0].StopState? && Stop(c, us, env).err.None?
    requires Read(g, Stop(c, us, env).fx, id)
             == if id == |us| - 1 && Legal(InstallOp, us[id].stage) then Stopping else g
    ensures var c' := Stop(c, us, env).c;
            var o := Run(states[1..], c'.(num := c'.num + 1), us, cfg, env);
            Fits(Replay(us, o.fx), id, Read(Read(g, Stop(c, us, env).fx, id), o.fx, id))
    decreases |states|, 0
  {
    hide Replay, StepsOk, Read, Execute, Run, Stop, Install, Inv, Fits;
    AtDrives(level, c, us);
    StopLeaves(c, us, env);
    var c' := Stop(c, us, env).c;
    var c1, g1 := c'.(num := c'.num + 1), Read(g, Stop(c, us, env).fx, id);
    var o1 := Install(c1, us, env);
    ExecuteIs(c1, us, cfg, env);
    InstallLeaves(c1, us, env);
    InstallFits(c1, us, env, id, g1);
    RunGoesOn(states[1..], c1, us, cfg, env, id, g1);
    if o1.err.None? {
      ReplayKeepsInv(us, o1.fx);
      assert states[1..][1..] == states[2..];
      StagesRead(states[2..], 4, o1.c.(num := o1.c.num + 1), Replay(us, o1.fx), cfg, env, id, Read(g1, o1.fx, id));
    }
  }

  /** Init, on an update it resumes or creates. */
  lemma {:induction false} InitFits(c: Ctx, us: Updates, env: Env, id: nat, g: Place)
    requires Inv(us) && Checked(c, us) && Fits(us, id, g)
    ensures var o := Init(c, us, env); Fits(Replay(us, o.fx), id, Read(g, o.fx, id))
  {
    hide Replay, StepsOk, Read;
    NoSteps(us);
    ReadNone(g, id);
    if c.runner.Some? {
      InitRuns(c, us, env, id, g);
    } else {
      InitCreates(c, us, env);
      var create := [New(c.to.id)];
      OneStep(us, New(c.to.id));
      ReplayKeepsInv(us, create);
      var us0, c0 := Replay(us, create), c.(runner := Some(|us|));
      ReadOne(g, New(c.to.id), id);
      InitRuns(c0, us0, env, id, g);
      ReadConcat(g, create, Init(c0, us0, env).fx, id);
      ReplayConcat(us, create, Init(c0, us0, env).fx);
    }
  }

  lemma {:induction false} InitRuns(c: Ctx, us: Updates, env: Env, id: nat, g: Place)
    requires Inv(us) && Drives(c, us, 0) && Fits(us, id, g)
    ensures var o := Init(c, us, env); Fits(Replay(us, o.fx), id, Read(g, o.fx, id))
  {
    hide Replay, StepsOk, Read;
    NoSteps(us);
    ReadNone(g, id);
    if id == |us| - 1 {
      InitReads(c, us, env, g);
    } else {
      OnlyDriven(InitState, c, us, Config(None, 0, 1), env);
      OthersAlone(us, Init(c, us, env).fx, |us| - 1, id, g);
    }
  }

  /** From Init on. */
  lemma {:induction false} CheckedReads(
    states: seq<ActionState>, c: Ctx, us: Updates, cfg: Config, env: Env, id: nat, g: Place)
    requires Inv(us) && Checked(c, us) && Fits(us, id, g) && states != [] && states[0].InitState?
    requires Ordered(states[1..], 2) && Paired(states[1..]) && !(InitState in states[1..])
    ensures var o := Run(states, c, us, cfg, env); Fits(Replay(us, o.fx), id, Read(g, o.fx, id))
  {
    hide Replay, StepsOk, Read, Run, Init, Execute, Fits, Inv;
    ExecuteIs(c, us, cfg, env);
    InitLeaves(c, us, env);
    InitFits(c, us, env, id, g);
    RunGoesOn(states, c, us, cfg, env, id, g);
    var o := Init(c, us, env);
    if o.err.None? {
      ReplayKeepsInv(us, o.fx);
      StagesRead(states[1..], 2, o.c.(num := o.c.num + 1), Replay(us, o.fx), cfg, env, id, Read(g, o.fx, id));
    }
  }

  lemma {:induction false} ActionTail(a: Action)
    ensures var s := States(a);
            && |s| > 1 && s[0].CheckState? && s[1..][0].InitState?
            && Ordered(s[1..][1..], 2) && Paired(s[1..][1..]) && !(InitState in s[1..][1..])
  {
    ActionsAreOrdered(a);
    ActionsArePaired(a);
    assert States(a)[1..][1..] == States(a)[2..];
  }

  lemma {:induction false} ActionReads(a: Action, us: Updates, cfg: Config, env: Env, id: nat, g: Place)
    requires Inv(us) && Fits(us, id, g)
    ensures var o := Act(a, us, cfg, env); Fits(Replay(us, o.fx), id, Read(g, o.fx, id))
  {
    hide Replay, StepsOk, Read, Run, Check, Execute, Fits, Inv, States, Ordered, Paired, Checked;
    NoSteps(us);
    ReadNone(g, id);
    ActionTail(a);
    var states := States(a);
    ExecuteIs(FRESH, us, cfg, env);
    CheckLeaves(states[0].opts, FRESH, us, cfg, env);
    RunGoesOn(states, FRESH, us, cfg, env, id, g);
    var o := Check(states[0].opts, FRESH, us, cfg, env);
    if o.err.None? {
      CheckedIsFree(o.c, us, o.c.num + 1);
      CheckedReads(states[1..], o.c.(num := o.c.num + 1), us, cfg, env, id, g);
    }
  }

  lemma {:induction false} CheckedIsFree(c: Ctx, us: Updates, num: nat)
    requires Checked(c, us)
    ensures Checked(c.(num := num), us)
  {
  }

  predicate CrashFree(steps: seq<Step>) {
    forall i :: 0 <= i < |steps| && steps[i].RunStep? ==> steps[i].died.None?
  }

  /** In every history of runs that end by themselves, with any failures and cancellations, the events of every
      update follow the grammar, and between runs they stand where the finished operations say. */
  lemma {:induction false} EventsFollowGrammar(steps: seq<Step>, id: nat)
    requires CrashFree(steps)
    ensures var fx := History([], steps); Fits(Replay([], fx), id, Read(Idle, fx, id))
  {
    hide Replay, StepsOk, Read;
    NoSteps([]);
    ReadNone(Idle, id);
    if steps == [] {
      assert History([], steps) == [];
    } else {
      var before, s := steps[..|steps| - 1], steps[|steps| - 1];
      EventsFollowGrammar(before, id);
      var fx := History([], before);
      HistoryIsWellPlaced([], before);
      var us, g := Replay([], fx), Read(Idle, fx, id);
      var more := StepEffects(us, s);
      if s.RunStep? {
        ActionReads(s.action, us, s.cfg, s.env, id, g);
      } else if more != [] {
        OneStep(us, more[0]);
        ReadOne(g, more[0], id);
        assert more == [more[0]];
      } else {
        NoSteps(us);
        ReadNone(g, id);
      }
      ReplayConcat([], fx, more);
      ReadConcat(Idle, fx, more, id);
    }
  }

  /** After a successful start the update is still open, so that a later run completes it and reports success
      again, exactly when all four attempts end in an error that does not fail the update. */
  lemma {:induction false} CompletionRepeatsIff(u: Update, rs: seq<OpResult>)
    requires Legal(CompleteOp, u.stage)
    ensures !Terminal(AfterAttempts(u, rs).stage)
            <==> forall i :: 0 <= i < |rs| ==> rs[i] != Ran(Done) && rs[i] != Ran(Fatal)
    decreases |rs|
  {
    if rs != [] {
      var u' := Ran1(u, CompleteOp, [], rs[0]);
      if Legal(CompleteOp, u'.stage) {
        CompletionRepeatsIff(u', rs[1..]);
        assert forall i :: 0 < i < |rs| ==> rs[i] == rs[1..][i - 1];
        assert forall i :: 0 <= i < |rs| - 1 ==> rs[1..][i] == rs[i + 1];
      } else {
        AttemptsStay(u', rs[1..]);
      }
    }
  }
}
