// How Check answers: which error comes from what, which target a new update is for, and
// which status the context has afterwards.

module Answers {
  import opened Options
  import opened Targets
  import opened Runner
  import opened Stages
  import opened Histories
  import opened GoodRuns
  import opened Stepwise
  import opened Decisions

  /** The action may go on at all: the update in progress, if any, is known and in a stage that is allowed. */
  predicate Admitted(opts: CheckOpts, us: Updates, env: Env) {
    && env.lookup && (Current(us).Some? || opts.allowNew)
    && (opts.allowed == [] || (Current(us).Some? && us[|us| - 1].stage in opts.allowed))
  }

  /** Target lists load: the list at hand may be missing, but not broken, and a new one is there if it is asked for. */
  predicate Loads(opts: CheckOpts, env: Env) {
    env.repo && !env.cached.LoadFailed? && (opts.updateTargets ==> env.reloaded.Loaded?)
  }

  /** The list that counts: the new one if it is asked for, else the one at hand, which is empty if it is missing. */
  function Listed(opts: CheckOpts, env: Env): seq<Target>
    requires Loads(opts, env)
  {
    if opts.updateTargets then env.reloaded.targets else if env.cached.Loaded? then env.cached.targets else []
  }

  lemma {:induction false} LoadsIff(opts: CheckOpts, env: Env)
    ensures LoadTargets(opts, env).Some? <==> Loads(opts, env)
    ensures Loads(opts, env) ==> LoadTargets(opts, env).value == Listed(opts, env)
  {
  }

  /** What a new update is for, before attempts are counted. */
  function FirstChoice(opts: CheckOpts, us: Updates, cfg: Config, env: Env): Target
    requires Loads(opts, env)
  {
    var ts := Listed(opts, env);
    if opts.toVersion != -1 then ByVersion(ts, opts.toVersion)
    else if opts.syncCurrent then SyncTarget(ts, FromTarget(us, ts, env))
    else Latest(ts, cfg.versionLimit)
  }

  /** Each error of Check comes from one cause. */
  lemma {:induction false} ErrorsOfCheckIff(opts: CheckOpts, us: Updates, cfg: Config, env: Env)
    ensures var err := Check(opts, FRESH, us, cfg, env).err;
            && (err == Some(ErrUpdateLookup) <==> !env.lookup)
            && (err == Some(ErrNoUpdateInProgress) <==> env.lookup && Current(us).None? && !opts.allowNew)
            && (err == Some(ErrMetaUpdateFailed) <==> Admitted(opts, us, env) && !Loads(opts, env))
    ensures Admitted(opts, us, env) && Loads(opts, env) && Current(us).None? ==>
              var err := Check(opts, FRESH, us, cfg, env).err;
              && (err == Some(ErrTargetNotFound) <==> FirstChoice(opts, us, cfg, env).id == UNKNOWN.id)
              && err in {None, Some(ErrTargetNotFound), Some(ErrCheckNoUpdate)}
    ensures Admitted(opts, us, env) && Loads(opts, env) && Current(us).Some? ==>
              var err := Check(opts, FRESH, us, cfg, env).err;
              var t := TargetOf(us[|us| - 1], Listed(opts, env), env.parse);
              && (err == Some(ErrInvalidOngoingUpdate) <==> t.None?)
              && (err == Some(ErrInvalidActionForState) <==>
                    t.Some? && opts.toVersion != -1 && t.value.version != opts.toVersion)
              && (err == Some(ErrNewerVersionIsAvailable) <==>
                    t.Some? && opts.toVersion == -1 && opts.requireLatest
                    && Latest(Listed(opts, env), cfg.versionLimit).id != us[|us| - 1].ref)
              && err in {None, Some(ErrInvalidOngoingUpdate), Some(ErrInvalidActionForState),
                         Some(ErrNewerVersionIsAvailable)}
    ensures env.lookup && (Current(us).Some? || opts.allowNew) && !Admitted(opts, us, env) ==>
              Check(opts, FRESH, us, cfg, env).err == Some(ErrInvalidActionForState)
  {
    hide LoadTargets, Diff, FromTarget, InSync, TargetOf, Latest, SyncTarget, CountFailed;
    LoadsIff(opts, env);
  }

  /** A new update that gets past the selection is for its first choice, unless failures are limited, can be counted,
      and have used that target's attempts up: then it is for the current target. A version asked for is not
      limited. */
  lemma {:induction false} NewTargetIs(opts: CheckOpts, us: Updates, cfg: Config, env: Env)
    requires Current(us).None?
    ensures var o := Check(opts, FRESH, us, cfg, env);
            o.err.None? || o.err == Some(ErrCheckNoUpdate) ==>
              && Loads(opts, env) && o.c.targets == Listed(opts, env)
              && o.c.from == FromTarget(us, Listed(opts, env), env)
              && var first := FirstChoice(opts, us, cfg, env);
                 var limited := opts.toVersion == -1 && opts.maxAttempts > 0 && env.countReadable
                                && CountFailed(us, first.id) >= opts.maxAttempts;
                 var t := if limited then SyncTarget(Listed(opts, env), o.c.from) else first;
                 o.c.to == t.(apps := KeepNamed(t.apps, cfg.enabled))
  {
    hide LoadTargets, Diff, FromTarget, InSync, TargetOf, Latest, SyncTarget, CountFailed;
    LoadsIff(opts, env);
  }

  /** To synchronize the current target is to take the first listed target of its version, and the current target as it
      is known if none is listed. */
  lemma {:induction false} SyncTargetIs(ts: seq<Target>, from: Target, i: nat)
    ensures i < |ts| && ts[i].version == from.version && (forall j :: 0 <= j < i ==> ts[j].version != from.version)
            && ts[i].id != UNKNOWN.id ==>
              SyncTarget(ts, from) == ts[i]
    ensures (forall j :: 0 <= j < |ts| ==> ts[j].version != from.version) ==> SyncTarget(ts, from) == from
  {
    if i < |ts| && ts[i].version == from.version && forall j :: 0 <= j < i ==> ts[j].version != from.version {
      FirstVersionIsFound(ts, from.version, i);
    }
  }

  /** A forced update of the current target that goes well completes the apps that are listed for it and enabled. */
  lemma {:induction false} SyncCompletes(us: Updates, cfg: Config, env: Env, ts: seq<Target>, requireLatest: bool)
    requires Inv(us) && Current(us).None? && Good(cfg, env) && env.reloaded == Loaded(ts)
    requires SyncTarget(ts, FromTarget(us, ts, env)).id != UNKNOWN.id
    ensures var o := Act(UpdateAction(-1, UpdateOpts(true, true, 0, requireLatest)), us, cfg, env);
            var t := SyncTarget(ts, FromTarget(us, ts, env));
            && o.err.None?
            && Replay(us, o.fx) == us + [Update(t.id, Uris(KeepNamed(t.apps, cfg.enabled)), Runner.Completed, 5)]
  {
    hide Act, AfterCheck, Check, Run, Replay, NoSpace, SyncTarget, FromTarget, Inv;
    var a := UpdateAction(-1, UpdateOpts(true, true, 0, requireLatest));
    StagesAre(-1, a.opts);
    ActIs(a, us, cfg, env);
    ErrorsOfCheckIff(Opts(a), us, cfg, env);
    NewTargetIs(Opts(a), us, cfg, env);
    var check := Check(Opts(a), FRESH, us, cfg, env);
    if check.err.None? || check.err == Some(ErrCheckNoUpdate) { CheckDecides(Opts(a), FRESH, us, cfg, env); }
    NewCompletes(check.c.(num := check.c.num + 1), us, cfg, env);
  }

  /** The status is read exactly for a new, unforced sync, unless its app lists differ and nothing stays as it is: then
      it does not matter. */
  lemma {:induction false} StatusIsReadIff(opts: CheckOpts, us: Updates, cfg: Config, env: Env)
    ensures var o := Check(opts, FRESH, us, cfg, env);
            o.err.None? || o.err == Some(ErrCheckNoUpdate) ==>
              var d := o.c.diff;
              o.c.status ==
              if !opts.force && Current(us).None? && o.c.to.id == o.c.from.id
                 && (d.sync != [] || (d.add == [] && d.remove == [] && d.update == []))
              then env.status else None
  {
    hide Check;
    var o := Check(opts, FRESH, us, cfg, env);
    if o.err.None? || o.err == Some(ErrCheckNoUpdate) { CheckDecides(opts, FRESH, us, cfg, env); }
  }

  /** An update cannot be resolved exactly if its target is not listed and it cannot be rebuilt: its ID has no version,
      or one of its apps is not known. */
  lemma {:induction false} ResolvesIff(u: Update, ts: seq<Target>, parse: map<string, App>)
    ensures TargetOf(u, ts, parse).Some? <==>
              !IsUnknown(ById(ts, u.ref)) || (VersionOf(u.ref).Some? && forall uri :: uri in u.uris ==> uri in parse)
  {
    ParsesIff(u.uris, parse);
    hide VersionOf, ParseApps;
  }
}
