// What a flush request comes to: a batch of the table is posted and deleted, if the
// flushes succeed, in whatever order the sender, its worker and the timer take their steps.

module FlushRequests {
  import opened EventTables
  import opened EventSenders

  function Min(a: nat, b: nat): nat { if a < b then a else b }

  /** The steps of the sender and its worker, and the timer; every flush among them succeeds. */
  predicate Smooth(steps: seq<Step>) {
    forall i :: 0 <= i < |steps| ==>
      && (Internal(steps[i]) || steps[i].Tick?)
      && (steps[i].Get? || steps[i].Post? || steps[i].Delete? ==> steps[i].ok)
  }

  /** How many events the flush under way will have deleted, with those deleted before. */
  function Due(s: State): nat {
    if s.workers == [] || s.workers[0].Selecting? then s.deleted
    else if s.workers[0].Getting? then s.deleted + Min(MAX_EVENTS, |s.rows|)
    else s.deleted + |s.workers[0].batch|
  }

  /** A flush that starts now and takes a whole batch would reach this many. */
  function Reach(s: State): nat {
    s.deleted + Min(MAX_EVENTS, |s.rows|)
  }

  predicate SmoothStep(s: State, step: Step) {
    && Enabled(s, step) && (Internal(step) || step.Tick?)
    && (step.Get? || step.Post? || step.Delete? ==> step.ok)
  }

  lemma {:induction false} DeleteDue(s: State, step: Step)
    requires SenderInv(s) && SmoothStep(s, step) && step.Delete?
    ensures Due(s) <= Due(Next(s, step)) && Reach(s) <= Reach(Next(s, step))
  {
    DeleteIs(s, step);
    HeldIs(s, step.w);
    hide SenderInv, Next, Sent;
  }

  lemma {:induction false} PostDue(s: State, step: Step)
    requires SenderInv(s) && SmoothStep(s, step) && step.Post?
    ensures Due(s) <= Due(Next(s, step)) && Reach(s) <= Reach(Next(s, step))
  {
    HeldIs(s, step.w);
    WorkerSteps(s, step);
    FlushPosts(s, s.workers[step.w], true);
    hide SenderInv, Next, Min;
  }

  lemma {:induction false} OtherDue(s: State, step: Step)
    requires ChannelsOk(s) && SmoothStep(s, step) && !step.Post? && !step.Delete?
    ensures Due(s) <= Due(Next(s, step)) && Reach(s) <= Reach(Next(s, step))
    ensures step.TakeFlush? || step.Tick? ==> Due(Next(s, step)) == Reach(s)
  {
    hide PostedBy, DeletedBy, Inserted, Events;
    if step.Get? && s.rows != [] { BatchIsSome(s.rows); }
    hide Batch, Min;
    MinOfNone();
  }

  lemma {:induction false} MinOfNone()
    ensures Min(MAX_EVENTS, 0) == 0
  {
  }

  /** What is due does not become less, and a flush that starts makes due what it can reach. */
  lemma {:induction false} DueStep(s: State, step: Step)
    requires SenderInv(s) && SmoothStep(s, step)
    ensures Due(s) <= Due(Next(s, step)) && Reach(s) <= Reach(Next(s, step))
    ensures step.TakeFlush? || step.Tick? ==> Due(Next(s, step)) == Reach(s)
  {
    ChannelsAreOk(s);
    hide SenderInv, Next, Enabled, Due, Reach, ChannelsOk;
    if step.Delete? { DeleteDue(s, step); }
    else if step.Post? { PostDue(s, step); }
    else { OtherDue(s, step); }
  }

  lemma {:induction false} SmoothRun(s: State, steps: seq<Step>)
    requires SenderInv(s) && Runs(s, steps) && Smooth(steps)
    ensures Due(s) <= Due(After(s, steps)) && Reach(s) <= Reach(After(s, steps))
    decreases |steps|
  {
    hide SenderInv, Next, Enabled, Due, Reach;
    if steps != [] {
      DueStep(s, steps[0]);
      InvStep(s, steps[0]);
      SmoothRun(Next(s, steps[0]), steps[1..]);
    }
  }

  lemma {:induction false} RunInTwo(s: State, a: seq<Step>, b: seq<Step>)
    requires Runs(s, a + b)
    ensures Runs(s, a) && Runs(After(s, a), b) && After(s, a + b) == After(After(s, a), b)
    decreases |a|
  {
    hide Next, Enabled;
    if a == [] {
      assert a + b == b;
    } else {
      assert (a + b)[1..] == a[1..] + b;
      RunInTwo(Next(s, a[0]), a[1..], b);
    }
  }

  /** The schedule has been run to its end: the sender and its worker have nothing left to do. */
  ghost predicate AtRest(s: State) {
    forall step :: Internal(step) ==> !Enabled(s, step)
  }

  lemma {:induction false} NothingDueAtRest(s: State)
    requires ChannelsOk(s) && AtRest(s)
    ensures s.caller.Free? && !s.flushReq && Due(s) == s.deleted
  {
    if !s.caller.Free? || s.flushReq || (s.workers != [] && !s.workers[0].Selecting?) { NeverStuck(s); }
  }

  /** A flush request that the worker takes is carried out: when the schedule has been run to its end, with flushes that
      succeed, at least a whole batch more has been deleted, or all there was. */
  lemma {:induction false} RequestIsCarriedOut(before: seq<Step>, steps: seq<Step>, i: nat)
    requires Runs(INIT, before) && Runs(After(INIT, before), steps) && Smooth(steps)
    requires i < |steps| && steps[i].TakeFlush? && AtRest(After(After(INIT, before), steps))
    ensures var s, s' := After(INIT, before), After(After(INIT, before), steps);
            s'.deleted >= s.deleted + Min(MAX_EVENTS, |s.rows|)
  {
    hide SenderInv, Next, Enabled, Due, AtRest, Min, Runs, After;
    var s := After(INIT, before);
    InitIsOk();
    RunsKeepInv(INIT, before);
    TakenIsCarriedOut(s, steps, i);
  }

  lemma {:induction false} InitIsOk()
    ensures SenderInv(INIT)
  {
  }

  lemma {:induction false} TakenIsCarriedOut(s: State, steps: seq<Step>, i: nat)
    requires SenderInv(s) && Runs(s, steps) && Smooth(steps) && AtRest(After(s, steps))
    requires i < |steps| && (steps[i].TakeFlush? || steps[i].Tick?)
    ensures After(s, steps).deleted >= Reach(s)
  {
    hide Next, Enabled, Due, AtRest, Min, Reach;
    var first, rest := steps[..i], steps[i..];
    assert first + rest == steps;
    RunInTwo(s, first, rest);
    RunsKeepInv(s, first);
    SmoothRun(s, first);
    var mid := After(s, first);
    DueStep(mid, rest[0]);
    InvStep(mid, rest[0]);
    var next := Next(mid, rest[0]);
    SmoothRun(next, rest[1..]);
    RunsKeepInv(s, steps);
    NothingDueAtRest(After(s, steps));
  }

  // An event that has been enqueued.

  /** A request is on its way, or in the channel, and nobody stops the sender. */
  predicate Requested(s: State) {
    s.caller.Flushing? || (s.caller.Free? && s.flushReq)
  }

  /** A request does not get lost: the worker takes it, and then the flush that it starts is due. */
  lemma {:induction false} RequestIsTaken(s: State, steps: seq<Step>)
    requires SenderInv(s) && Runs(s, steps) && Smooth(steps) && AtRest(After(s, steps)) && Requested(s)
    ensures exists i :: 0 <= i < |steps| && steps[i].TakeFlush?
    decreases |steps|
  {
    hide SenderInv, AtRest;
    if steps == [] {
      assert ChannelsOk(s) by { ChannelsAreOk(s); }
      NothingDueAtRest(s);
    } else if steps[0].TakeFlush? {
      assert steps[0].TakeFlush?;
    } else {
      StillRequested(s, steps[0]);
      InvStep(s, steps[0]);
      RequestIsTaken(Next(s, steps[0]), steps[1..]);
      var i :| 0 <= i < |steps[1..]| && steps[1..][i].TakeFlush?;
      assert steps[i + 1].TakeFlush?;
    }
  }

  lemma {:induction false} ChannelsAreOk(s: State)
    requires SenderInv(s)
    ensures ChannelsOk(s)
  {
  }

  /** Only the worker takes a request away. */
  lemma {:induction false} StillRequested(s: State, step: Step)
    requires SmoothStep(s, step) && Requested(s) && !step.TakeFlush? && SenderInv(s)
    ensures Requested(Next(s, step))
  {
    hide TableOk, PostedOk, HeldOk, Above, MaxId;
  }

  /** An event saved while the sender runs is on its way: the schedule that follows, run to its end with flushes that
      succeed, has posted and deleted a whole batch more, or every event up to this one. */
  lemma {:induction false} EnqueueIsCarriedOut(before: seq<Step>, e: Event, steps: seq<Step>)
    requires Runs(INIT, before) && After(INIT, before).started && After(INIT, before).caller.Free?
    requires var s := Next(After(INIT, before), Enqueue(e, true));
             Runs(s, steps) && Smooth(steps) && AtRest(After(s, steps))
    ensures var s := After(INIT, before);
            var s' := After(Next(s, Enqueue(e, true)), steps);
            s'.deleted >= s.deleted + Min(MAX_EVENTS, |s.rows| + 1)
  {
    var s := After(INIT, before);
    InitIsOk();
    RunsKeepInv(INIT, before);
    InvStep(s, Enqueue(e, true));
    var s1 := Next(s, Enqueue(e, true));
    assert s1.caller.Flushing? && |s1.rows| == |s.rows| + 1 && s1.deleted == s.deleted;
    hide SenderInv, Next, Enabled, Due, AtRest, Runs, After;
    RequestIsTaken(s1, steps);
    var i :| 0 <= i < |steps| && steps[i].TakeFlush?;
    TakenIsCarriedOut(s1, steps, i);
  }

  /** So is a flush that is asked for while the sender runs. */
  lemma {:induction false} FlushIsCarriedOut(before: seq<Step>, steps: seq<Step>)
    requires Runs(INIT, before) && After(INIT, before).started && After(INIT, before).caller.Free?
    requires var s := Next(After(INIT, before), RequestFlush);
             Runs(s, steps) && Smooth(steps) && AtRest(After(s, steps))
    ensures var s := After(INIT, before);
            After(Next(s, RequestFlush), steps).deleted >= s.deleted + Min(MAX_EVENTS, |s.rows|)
  {
    var s := After(INIT, before);
    InitIsOk();
    RunsKeepInv(INIT, before);
    InvStep(s, RequestFlush);
    var s1 := Next(s, RequestFlush);
    assert s1.caller.Flushing? && s1.rows == s.rows && s1.deleted == s.deleted;
    hide SenderInv, Next, Enabled, Due, AtRest, Runs, After;
    RequestIsTaken(s1, steps);
    var i :| 0 <= i < |steps| && steps[i].TakeFlush?;
    TakenIsCarriedOut(s1, steps, i);
  }

  // A sender that is started and stopped.

  const START_AND_STOP: seq<Step> := [Start, Stop, Proceed]
  const FLUSH_ONCE: seq<Step> := [TakeFlush(0), Get(0, true), Post(0, true), Delete(0, true)]
  const END: seq<Step> := [Proceed, TakeStop(0), Proceed]

  /** One step, known by what it leaves. */
  lemma {:induction false} Steps(s: State, step: Step, s': State, rest: seq<Step>, end: State)
    requires Enabled(s, step) && Next(s, step) == s' && Runs(s', rest) && After(s', rest) == end
    ensures Runs(s, [step] + rest) && After(s, [step] + rest) == end
  {
    assert ([step] + rest)[1..] == rest;
  }

  lemma {:induction false} RunsTogether(s: State, a: seq<Step>, b: seq<Step>)
    requires Runs(s, a) && Runs(After(s, a), b)
    ensures Runs(s, a + b) && After(s, a + b) == After(After(s, a), b)
    decreases |a|
  {
    hide Next, Enabled;
    if a == [] {
      assert a + b == b;
    } else {
      RunsTogether(Next(s, a[0]), a[1..], b);
      assert (a + b)[1..] == a[1..] + b;
    }
  }

  lemma {:induction false} StartAndStop(s: State)
    requires !s.started && s.workers == [] && s.caller.Free? && !s.flushReq && !s.stopReq
    ensures Runs(s, START_AND_STOP)
    ensures After(s, START_AND_STOP)
            == s.(workers := [Selecting], started := true, caller := StopSending, flushReq := true)
  {
    hide Runs, After;
    var s1 := s.(workers := [Selecting], started := true);
    var s2 := s1.(caller := StopFlushing);
    var s3 := s2.(caller := StopSending, flushReq := true);
    NoRuns(s3);
    Steps(s2, Proceed, s3, [], s3);
    Steps(s1, Stop, s2, [Proceed] + [], s3);
    Steps(s, Start, s1, [Stop] + ([Proceed] + []), s3);
    assert START_AND_STOP == [Start] + ([Stop] + ([Proceed] + []));
  }

  lemma {:induction false} FlushOnce(s: State)
    requires s.workers == [Selecting] && s.flushReq && s.rows != [] && Increasing(s.rows)
    ensures var batch := Batch(s.rows);
            && Runs(s, FLUSH_ONCE)
            && After(s, FLUSH_ONCE) == s.(flushReq := false, rows := s.rows[|batch|..],
                                          deleted := s.deleted + |batch|,
                                          posted := s.posted + [Posted(s.deleted, Events(batch))])
  {
    hide Runs, After, Batch, Events, Increasing;
    var b, held := Batch(s.rows), Holding(s.deleted, Batch(s.rows), false);
    BatchIsSome(s.rows);
    var s1 := s.(flushReq := false, workers := [Getting]);
    var s2 := s1.(workers := [held]);
    var s3 := s2.(workers := [held.(posted := true)], posted := s.posted + [Posted(s.deleted, Events(b))]);
    DeletedIs(s3, 0);
    var s4 := s3.(workers := [Selecting], rows := s.rows[|b|..], deleted := s.deleted + |b|);
    hide DeletedBy;
    NoRuns(s4);
    Steps(s3, Delete(0, true), s4, [], s4);
    Steps(s2, Post(0, true), s3, [Delete(0, true)] + [], s4);
    Steps(s1, Get(0, true), s2, [Post(0, true)] + ([Delete(0, true)] + []), s4);
    var rest := [Get(0, true)] + ([Post(0, true)] + ([Delete(0, true)] + []));
    Steps(s, TakeFlush(0), s1, rest, s4);
    assert FLUSH_ONCE == [TakeFlush(0)] + rest;
  }

  lemma {:induction false} End(s: State)
    requires s.workers == [Selecting] && s.caller.StopSending? && !s.flushReq && !s.stopReq
    ensures Runs(s, END) && After(s, END) == s.(workers := [], caller := Free, started := false)
  {
    hide Runs, After;
    var s1 := s.(caller := StopWaiting, stopReq := true);
    var s2 := s1.(workers := [], stopReq := false);
    var s3 := s2.(caller := Free, started := false);
    NoRuns(s3);
    Steps(s2, Proceed, s3, [], s3);
    Steps(s1, TakeStop(0), s2, [Proceed] + [], s3);
    Steps(s, Proceed, s1, [TakeStop(0)] + ([Proceed] + []), s3);
    assert END == [Proceed] + ([TakeStop(0)] + ([Proceed] + []));
  }

  /** A sender that is not running starts a worker, and can flush once before a Stop ends it: Stop asks for a flush
      before it asks the worker to end. */
  lemma {:induction false} StopFlushesFirst(before: seq<Step>)
    requires Runs(INIT, before) && !After(INIT, before).started && After(INIT, before).rows != []
    ensures var s, briefly := After(INIT, before), START_AND_STOP + FLUSH_ONCE + END;
            var batch := Batch(s.rows);
            && Runs(s, briefly)
            && After(s, briefly) == s.(rows := s.rows[|batch|..], deleted := s.deleted + |batch|,
                                       posted := s.posted + [Posted(s.deleted, Events(batch))])
  {
    var s := After(INIT, before);
    InitIsOk();
    RunsKeepInv(INIT, before);
    StoppedIs(s);
    assert Increasing(s.rows);
    hide SenderInv, Increasing, Runs, After, Batch, Events;
    StartAndStop(s);
    FlushOnce(After(s, START_AND_STOP));
    RunsTogether(s, START_AND_STOP, FLUSH_ONCE);
    End(After(s, START_AND_STOP + FLUSH_ONCE));
    RunsTogether(s, START_AND_STOP + FLUSH_ONCE, END);
  }

  lemma {:induction false} StoppedIs(s: State)
    requires SenderInv(s) && !s.started
    ensures s.workers == [] && s.caller.Free? && !s.flushReq && !s.stopReq
  {
  }

  lemma {:induction false} BatchIsSome(rows: seq<Row>)
    requires rows != []
    ensures Batch(rows) != [] && |Batch(rows)| == Min(MAX_EVENTS, |rows|)
  {
  }

  lemma {:induction false} NoRuns(s: State)
    ensures Runs(s, []) && After(s, []) == s
  {
  }
}
