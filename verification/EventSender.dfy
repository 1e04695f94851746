// The event sender (internal/events/event_sender.go): one thread that calls Start,
// EnqueueEvent, FlushEventsAsync and Stop, and the workers it has started, step by step.
// A flush is three critical sections, and inserts may fall between them.

module EventSenders {
  import opened EventTables

  /** Where a worker is: in its select, about to read, or between reading a batch and deleting it. `from` is a
      history variable: how many events had been deleted when the batch was read. */
  datatype Worker =
    | Selecting
    | Getting
    | Holding(from: nat, batch: seq<Row>, posted: bool)

  /** Where the calling thread is: between calls, or blocked at a channel send or at the wait in Stop. */
  datatype Caller = Free | Flushing | StopFlushing | StopSending | StopWaiting

  datatype Posted = Posted(from: nat, events: seq<Event>)

  /** The table, the workers, the calling thread, the sender's two channels of capacity one; and the history: the
      events saved, how many have been deleted, the batches the gateway has taken. */
  datatype State = State(
    rows: seq<Row>, workers: seq<Worker>, caller: Caller, started: bool, flushReq: bool, stopReq: bool,
    saved: seq<Event>, deleted: nat, posted: seq<Posted>)

  const INIT := State([], [], Free, false, false, false, [], 0, [])

  datatype Step =
    | Start
    | Enqueue(e: Event, ok: bool)
    | RequestFlush
    | Stop
    | Proceed
    | TakeStop(w: nat)
    | TakeFlush(w: nat)
    | Tick(w: nat)
    | Get(w: nat, ok: bool)
    | Post(w: nat, ok: bool)
    | Delete(w: nat, ok: bool)
    | Die

  predicate Enabled(s: State, step: Step) {
    match step
    case Start => s.caller.Free?
    case Enqueue(_, _) => s.caller.Free?
    case RequestFlush => s.caller.Free?
    case Stop => s.caller.Free?
    case Proceed =>
      (match s.caller
       case Free => false
       case Flushing => !s.flushReq
       case StopFlushing => !s.flushReq
       case StopSending => !s.stopReq
       case StopWaiting => s.workers == [])
    case TakeStop(w) => w < |s.workers| && s.workers[w].Selecting? && s.stopReq
    case TakeFlush(w) => w < |s.workers| && s.workers[w].Selecting? && s.flushReq
    case Tick(w) => w < |s.workers| && s.workers[w].Selecting?
    case Get(w, _) => w < |s.workers| && s.workers[w].Getting?
    case Post(w, _) => w < |s.workers| && s.workers[w].Holding? && !s.workers[w].posted
    case Delete(w, _) => w < |s.workers| && s.workers[w].Holding? && s.workers[w].posted
    case Die => true
  }

  function Move(s: State, w: nat, to: Worker): State
    requires w < |s.workers|
  {
    s.(workers := s.workers[w := to])
  }

  function Proceeded(s: State): State {
    match s.caller
    case Free => s
    case Flushing => s.(flushReq := true, caller := Free)
    case StopFlushing => s.(flushReq := true, caller := StopSending)
    case StopSending => s.(stopReq := true, caller := StopWaiting)
    case StopWaiting => s.(started := false, flushReq := false, stopReq := false, caller := Free)
  }

  function PostedBy(s: State, w: nat, ok: bool): State
    requires w < |s.workers| && s.workers[w].Holding?
  {
    var h := s.workers[w];
    if ok then Move(s.(posted := s.posted + [Posted(h.from, Events(h.batch))]), w, h.(posted := true))
    else Move(s, w, Selecting)
  }

  function DeletedBy(s: State, w: nat, ok: bool): State
    requires w < |s.workers| && s.workers[w].Holding?
  {
    var left := if ok then Above(s.rows, MaxId(s.workers[w].batch)) else s.rows;
    var gone := if |left| <= |s.rows| then |s.rows| - |left| else 0;
    Move(s.(rows := left, deleted := s.deleted + gone), w, Selecting)
  }

  function Next(s: State, step: Step): State
    requires Enabled(s, step)
  {
    match step
    case Start =>
      if s.started then s
      else s.(workers := s.workers + [Selecting], started := true, flushReq := false, stopReq := false)
    case Enqueue(e, ok) =>
      if !ok then s
      else s.(rows := Inserted(s.rows, e), saved := s.saved + [e], caller := if s.started then Flushing else Free)
    case RequestFlush => s.(caller := if s.started then Flushing else Free)
    case Stop => s.(caller := if s.started then StopFlushing else Free)
    case Proceed => Proceeded(s)
    case TakeStop(w) => s.(workers := s.workers[..w] + s.workers[w + 1..], stopReq := false)
    case TakeFlush(w) => Move(s.(flushReq := false), w, Getting)
    case Tick(w) => Move(s, w, Getting)
    case Get(w, ok) =>
      Move(s, w, if ok && s.rows != [] then Holding(s.deleted, Batch(s.rows), false) else Selecting)
    case Post(w, ok) => PostedBy(s, w, ok)
    case Delete(w, ok) => DeletedBy(s, w, ok)
    case Die => s.(workers := [], caller := Free, started := false, flushReq := false, stopReq := false)
  }

  // Nothing is lost.

  /** What the table holds is exactly the saved events that have not been deleted, in the order they were saved. */
  predicate TableOk(s: State) {
    Increasing(s.rows) && s.deleted <= |s.saved| && Events(s.rows) == s.saved[s.deleted..]
  }

  function EndOf(p: Posted): nat {
    p.from + |p.events|
  }

  predicate Slices(ps: seq<Posted>, saved: seq<Event>) {
    forall i :: 0 <= i < |ps| ==> EndOf(ps[i]) <= |saved| && ps[i].events == saved[ps[i].from..EndOf(ps[i])]
  }

  /** Each batch starts where the one before it ended, or where it started: the same events over again. */
  predicate Consecutive(ps: seq<Posted>) {
    && (ps != [] ==> ps[0].from == 0)
    && (forall i :: 0 < i < |ps| ==> ps[i].from == ps[i - 1].from || ps[i].from == EndOf(ps[i - 1]))
  }

  function Sent(ps: seq<Posted>): nat {
    if ps == [] then 0 else EndOf(ps[|ps| - 1])
  }

  /** The posted batches are slices of the saved events, one after the other; only the last may wait for its delete. */
  predicate PostedOk(s: State) {
    && Slices(s.posted, s.saved) && Consecutive(s.posted)
    && (s.deleted == Sent(s.posted) || (s.posted != [] && s.deleted == s.posted[|s.posted| - 1].from))
  }

  /** A batch in a worker's hands is the beginning of the table; once posted it is the last batch posted. */
  predicate HeldOk(s: State) {
    forall w :: 0 <= w < |s.workers| && s.workers[w].Holding? ==>
      var h := s.workers[w];
      && h.batch != [] && h.batch <= s.rows && h.from == s.deleted
      && (h.posted ==> s.posted != [] && s.posted[|s.posted| - 1] == Posted(s.deleted, Events(h.batch)))
  }

  /** At most one worker; none when the sender is stopped; a stop request means that Stop waits for it. */
  predicate ChannelsOk(s: State) {
    && |s.workers| <= 1
    && (!s.started ==> s.workers == [] && s.caller.Free? && !s.flushReq && !s.stopReq)
    && (s.started && s.workers == [] ==> s.caller.StopWaiting?)
    && (s.stopReq <==> s.caller.StopWaiting? && s.workers != [])
  }

  predicate SenderInv(s: State) {
    TableOk(s) && PostedOk(s) && HeldOk(s) && ChannelsOk(s)
  }

  lemma {:induction false} ChannelsStep(s: State, step: Step)
    requires ChannelsOk(s) && Enabled(s, step)
    ensures ChannelsOk(Next(s, step))
  {
  }

  lemma {:induction false} InsertStep(s: State, step: Step)
    requires SenderInv(s) && Enabled(s, step) && step.Enqueue? && step.ok
    ensures TableOk(Next(s, step)) && PostedOk(Next(s, step)) && HeldOk(Next(s, step))
  {
    InsertKeepsIncreasing(s.rows, step.e);
    assert s.rows <= Next(s, step).rows;
    assert s.saved[s.deleted..] + [step.e] == (s.saved + [step.e])[s.deleted..];
  }

  lemma {:induction false} BatchIsSlice(s: State, batch: seq<Row>)
    requires TableOk(s) && batch <= s.rows
    ensures s.deleted + |batch| <= |s.saved| && Events(batch) == s.saved[s.deleted..s.deleted + |batch|]
    ensures Events(s.rows[|batch|..]) == s.saved[s.deleted + |batch|..]
  {
    assert Events(batch) == Events(s.rows)[..|batch|];
    assert Events(s.rows[|batch|..]) == Events(s.rows)[|batch|..];
  }

  lemma {:induction false} PostAdds(ps: seq<Posted>, p: Posted, saved: seq<Event>)
    requires Slices(ps, saved) && Consecutive(ps) && Slices([p], saved)
    requires p.from == Sent(ps) || (ps != [] && p.from == ps[|ps| - 1].from)
    ensures Slices(ps + [p], saved) && Consecutive(ps + [p]) && Sent(ps + [p]) == EndOf(p)
  {
    assert [p][0] == p;
  }

  lemma {:induction false} PostStep(s: State, step: Step)
    requires SenderInv(s) && Enabled(s, step) && step.Post? && step.ok
    ensures TableOk(Next(s, step)) && PostedOk(Next(s, step)) && HeldOk(Next(s, step))
  {
    var h := s.workers[step.w];
    var p := Posted(h.from, Events(h.batch));
    HeldIs(s, step.w);
    BatchIsSlice(s, h.batch);
    PostAdds(s.posted, p, s.saved);
    hide Slices, Consecutive, Increasing;
  }

  /** What a worker holds. */
  lemma {:induction false} HeldIs(s: State, w: nat)
    requires SenderInv(s) && w < |s.workers| && s.workers[w].Holding?
    ensures var h := s.workers[w];
            && s.workers == [h] && h.batch != [] && h.batch <= s.rows && h.from == s.deleted
            && (h.posted ==> s.posted != [] && s.posted[|s.posted| - 1] == Posted(s.deleted, Events(h.batch))
                             && Sent(s.posted) == s.deleted + |h.batch|)
  {
    hide TableOk, PostedOk;
  }

  lemma {:induction false} WorkerSteps(s: State, step: Step)
    requires Enabled(s, step)
    ensures step.Post? ==> Next(s, step) == PostedBy(s, step.w, step.ok)
    ensures step.Delete? ==> Next(s, step) == DeletedBy(s, step.w, step.ok)
  {
    hide PostedBy, DeletedBy, Inserted, Batch, Proceeded;
  }

  lemma {:induction false} DeletedIs(s: State, w: nat)
    requires w < |s.workers| && s.workers[w].Holding? && s.workers == [s.workers[w]]
    requires Increasing(s.rows) && s.workers[w].batch != [] && s.workers[w].batch <= s.rows
    ensures var n := |s.workers[w].batch|;
            && n <= |s.rows| && Increasing(s.rows[n..])
            && DeletedBy(s, w, true) == s.(rows := s.rows[n..], deleted := s.deleted + n, workers := [Selecting])
  {
    DeletesTheBatch(s.rows, s.workers[w].batch);
    hide Increasing, Above, MaxId;
  }

  /** A delete removes exactly the posted batch. */
  lemma {:induction false} DeleteIs(s: State, step: Step)
    requires SenderInv(s) && Enabled(s, step) && step.Delete? && step.ok
    ensures var n := |s.workers[step.w].batch|;
            && n <= |s.rows| && Increasing(s.rows[n..]) && s.deleted + n == Sent(s.posted)
            && Next(s, step) == s.(rows := s.rows[n..], deleted := Sent(s.posted), workers := [Selecting])
  {
    hide Increasing, Sent, Next, DeletedBy, PostedOk, HeldOk, ChannelsOk;
    HeldIs(s, step.w);
    WorkerSteps(s, step);
    DeletedIs(s, step.w);
  }

  lemma {:induction false} DeleteStep(s: State, step: Step)
    requires SenderInv(s) && Enabled(s, step) && step.Delete? && step.ok
    ensures Next(s, step).deleted == Sent(s.posted) && Next(s, step).workers == [Selecting]
            && Next(s, step).posted == s.posted && Next(s, step).saved == s.saved
    ensures TableOk(Next(s, step)) && PostedOk(Next(s, step)) && HeldOk(Next(s, step))
  {
    DeleteIs(s, step);
    HeldIs(s, step.w);
    BatchIsSlice(s, s.workers[step.w].batch);
    hide Slices, Consecutive, Increasing, Next, Enabled;
  }

  /** The other steps leave the table and the history alone. */
  lemma {:induction false} QuietStep(s: State, step: Step)
    requires HeldOk(s) && ChannelsOk(s) && Enabled(s, step)
    requires !((step.Enqueue? || step.Post? || step.Delete?) && step.ok)
    ensures var s' := Next(s, step);
            s'.rows == s.rows && s'.saved == s.saved && s'.deleted == s.deleted && s'.posted == s.posted && HeldOk(s')
  {
    hide Above, MaxId, Events;
  }

  lemma {:induction false} InvStep(s: State, step: Step)
    requires SenderInv(s) && Enabled(s, step)
    ensures SenderInv(Next(s, step))
  {
    ChannelsStep(s, step);
    hide ChannelsOk, Next, Enabled, HeldOk, Increasing, Slices, Consecutive;
    if step.Enqueue? && step.ok { InsertStep(s, step); }
    else if step.Post? && step.ok { PostStep(s, step); }
    else if step.Delete? && step.ok { DeleteStep(s, step); }
    else { QuietStep(s, step); }
  }

  // Runs.

  predicate Runs(s: State, steps: seq<Step>)
    decreases |steps|
  {
    steps == [] || (Enabled(s, steps[0]) && Runs(Next(s, steps[0]), steps[1..]))
  }

  function After(s: State, steps: seq<Step>): State
    requires Runs(s, steps)
    decreases |steps|
  {
    if steps == [] then s else After(Next(s, steps[0]), steps[1..])
  }

  lemma {:induction false} RunsKeepInv(s: State, steps: seq<Step>)
    requires SenderInv(s) && Runs(s, steps)
    ensures SenderInv(After(s, steps))
    decreases |steps|
  {
    hide SenderInv, Next, Enabled;
    if steps != [] {
      InvStep(s, steps[0]);
      RunsKeepInv(Next(s, steps[0]), steps[1..]);
    }
  }

  /** The event saved as number i is in a batch that the gateway took. */
  predicate WasPosted(s: State, i: nat)
    requires i < |s.saved|
  {
    exists j :: 0 <= j < |s.posted| && s.posted[j].from <= i < EndOf(s.posted[j])
                && s.posted[j].events[i - s.posted[j].from] == s.saved[i]
  }

  lemma {:induction false} CoveredUpTo(s: State, n: nat, i: nat)
    requires PostedOk(s) && n < |s.posted| && i < EndOf(s.posted[n])
    ensures i < |s.saved| && WasPosted(s, i)
    decreases n
  {
    if i < s.posted[n].from {
      CoveredUpTo(s, n - 1, i);
    } else {
      var p := s.posted[n];
      assert p.events[i - p.from] == s.saved[p.from..EndOf(p)][i - p.from];
    }
  }

  lemma {:induction false} SavedIsSomewhere(s: State, i: nat)
    requires TableOk(s) && PostedOk(s) && i < |s.saved|
    ensures if i < s.deleted then WasPosted(s, i)
            else i - s.deleted < |s.rows| && s.rows[i - s.deleted].event == s.saved[i]
  {
    hide Slices, Consecutive, Increasing, WasPosted;
    if i < s.deleted {
      CoveredUpTo(s, |s.posted| - 1, i);
    } else {
      assert Events(s.rows)[i - s.deleted] == s.saved[i];
    }
  }

  /** No event is lost: after any run, with any failures, restarts and deaths of the process, every saved event is in
      the table, at its place, or was in a batch that the gateway took. */
  lemma {:induction false} NoEventLost(steps: seq<Step>, i: nat)
    requires Runs(INIT, steps) && i < |After(INIT, steps).saved|
    ensures var s := After(INIT, steps);
            if i < s.deleted then WasPosted(s, i)
            else i - s.deleted < |s.rows| && s.rows[i - s.deleted].event == s.saved[i]
  {
    assert SenderInv(INIT);
    RunsKeepInv(INIT, steps);
    hide Runs, After;
    SavedIsSomewhere(After(INIT, steps), i);
  }

  /** The saved events of a run are the ones it has enqueued, in that order. */
  function Enqueued(steps: seq<Step>): seq<Event> {
    if steps == [] then []
    else (if steps[0].Enqueue? && steps[0].ok then [steps[0].e] else []) + Enqueued(steps[1..])
  }

  lemma {:induction false} SavedAreEnqueued(s: State, steps: seq<Step>)
    requires Runs(s, steps)
    ensures After(s, steps).saved == s.saved + Enqueued(steps)
    decreases |steps|
  {
    if steps != [] {
      SavedStep(s, steps[0]);
      hide Next, Enabled;
      SavedAreEnqueued(Next(s, steps[0]), steps[1..]);
    }
  }

  lemma {:induction false} SavedStep(s: State, step: Step)
    requires Enabled(s, step)
    ensures Next(s, step).saved == s.saved + if step.Enqueue? && step.ok then [step.e] else []
  {
  }

  lemma {:induction false} FlushPosts(s: State, h: Worker, ok: bool)
    requires h.Holding? && s.workers == [h]
    ensures PostedBy(s, 0, ok)
            == if ok then s.(posted := s.posted + [Posted(h.from, Events(h.batch))], workers := [h.(posted := true)])
               else s.(workers := [Selecting])
  {
  }

  lemma {:induction false} KeptIs(s: State, w: nat)
    requires w < |s.workers| && s.workers[w].Holding? && s.workers == [s.workers[w]]
    ensures DeletedBy(s, w, false) == s.(workers := [Selecting])
  {
  }

  /** A worker whose flush nothing interrupts does what EventTable.FlushEvents does in one go. */
  lemma {:induction false} UninterruptedFlush(s: State, post: bool, delete: bool)
    requires SenderInv(s) && s.workers == [Getting] && s.rows != []
    ensures var posting := Next(s, Get(0, true));
            var deleting := Next(posting, Post(0, post));
            var done := if post then Next(deleting, Delete(0, delete)) else deleting;
            var batch := Events(Batch(s.rows));
            && done.posted == s.posted + (if post then [Posted(s.deleted, batch)] else [])
            && done.rows == (if post && delete then s.rows[|batch|..] else s.rows)
            && done.workers == [Selecting]
  {
    assert Increasing(s.rows);
    hide SenderInv, Increasing, PostedBy, DeletedBy;
    var h := Holding(s.deleted, Batch(s.rows), false);
    var posting := Next(s, Get(0, true));
    assert posting == s.(workers := [h]);
    WorkerSteps(posting, Post(0, post));
    var deleting := Next(posting, Post(0, post));
    FlushPosts(posting, h, post);
    if post {
      WorkerSteps(deleting, Delete(0, delete));
      DeletedIs(deleting, 0);
      KeptIs(deleting, 0);
    }
  }

  /** A read, a post or a delete that fails ends the flush, and a save that fails does nothing: the table and what the
      gateway has taken stay as they are. So they do when the process dies. */
  lemma {:induction false} FailureLeavesAll(s: State, step: Step)
    requires Enabled(s, step)
    ensures (step.Get? || step.Post? || step.Delete?) && !step.ok ==>
              Next(s, step) == s.(workers := s.workers[step.w := Selecting])
    ensures step.Enqueue? && !step.ok ==> Next(s, step) == s
    ensures step.Die? ==>
              var s' := Next(s, step);
              s'.rows == s.rows && s'.saved == s.saved && s'.deleted == s.deleted && s'.posted == s.posted
              && s'.workers == [] && !s'.started
  {
    hide Above, MaxId, Events, Inserted, Batch;
  }

  // Exactly once.

  function Flat(ps: seq<Posted>): seq<Event> {
    if ps == [] then [] else Flat(ps[..|ps| - 1]) + ps[|ps| - 1].events
  }

  predicate HoldsPosted(s: State) {
    exists w :: 0 <= w < |s.workers| && s.workers[w].Holding? && s.workers[w].posted
  }

  /** No delete fails, and the process does not die between a post and its delete. */
  predicate Clean(s: State, steps: seq<Step>)
    requires Runs(s, steps)
    decreases |steps|
  {
    steps == [] ||
    (!(steps[0].Delete? && !steps[0].ok) && !(steps[0].Die? && HoldsPosted(s)) && Clean(Next(s, steps[0]), steps[1..]))
  }

  /** The gateway has taken the deleted events once each, and the batch whose delete is due. */
  predicate Once(s: State) {
    && Sent(s.posted) <= |s.saved| && Flat(s.posted) == s.saved[..Sent(s.posted)]
    && (s.deleted != Sent(s.posted) ==> HoldsPosted(s))
  }

  lemma {:induction false} FlatAdd(ps: seq<Posted>, p: Posted)
    ensures Flat(ps + [p]) == Flat(ps) + p.events
  {
    assert (ps + [p])[..|ps + [p]| - 1] == ps;
  }

  lemma {:induction false} PostIs(s: State, step: Step)
    requires SenderInv(s) && Enabled(s, step) && step.Post? && step.ok
    ensures var h := s.workers[step.w];
            && s.workers == [h] && Events(h.batch) == s.saved[s.deleted..][..|h.batch|]
            && Next(s, step) == s.(posted := s.posted + [Posted(s.deleted, Events(h.batch))],
                                   workers := [h.(posted := true)])
  {
    HeldIs(s, step.w);
    BatchIsSlice(s, s.workers[step.w].batch);
    hide SenderInv;
    assert Next(s, step) == PostedBy(s, step.w, true);
  }

  lemma {:induction false} OncePost(s: State, step: Step)
    requires SenderInv(s) && Once(s) && Enabled(s, step) && step.Post? && step.ok
    ensures Once(Next(s, step))
  {
    PostIs(s, step);
    assert !HoldsPosted(s) && s.deleted <= |s.saved|;
    hide SenderInv, Flat, Sent, Next, Enabled;
    var h := s.workers[step.w];
    var p := Posted(s.deleted, Events(h.batch));
    FlatAdd(s.posted, p);
    SentAdd(s.posted, p);
    assert s.saved[..s.deleted] + p.events == s.saved[..EndOf(p)];
    assert Next(s, step).workers[0] == h.(posted := true);
  }

  lemma {:induction false} SentAdd(ps: seq<Posted>, p: Posted)
    ensures Sent(ps + [p]) == EndOf(p)
  {
  }

  lemma {:induction false} OnceDelete(s: State, step: Step)
    requires SenderInv(s) && Once(s) && Enabled(s, step) && step.Delete? && step.ok
    ensures Once(Next(s, step))
  {
    DeleteStep(s, step);
    hide SenderInv, Flat, Above, MaxId;
  }

  lemma {:induction false} OnceStep(s: State, step: Step)
    requires SenderInv(s) && Once(s) && Enabled(s, step)
    requires !(step.Delete? && !step.ok) && !(step.Die? && HoldsPosted(s))
    ensures Once(Next(s, step))
  {
    hide Flat, TableOk, PostedOk, HeldOk;
    var s' := Next(s, step);
    if step.Post? && step.ok { OncePost(s, step); }
    else if step.Delete? { OnceDelete(s, step); }
    else {
      assert s'.posted == s.posted && s'.deleted == s.deleted && s.saved <= s'.saved;
      if HoldsPosted(s) {
        assert s.workers[0].Holding? && s.workers[0].posted;
        assert s'.workers[0] == s.workers[0];
      }
    }
  }

  lemma {:induction false} CleanIsOnce(s: State, steps: seq<Step>)
    requires SenderInv(s) && Once(s) && Runs(s, steps) && Clean(s, steps)
    ensures Once(After(s, steps))
    decreases |steps|
  {
    hide SenderInv, Once, Next, Enabled, HoldsPosted;
    if steps != [] {
      InvStep(s, steps[0]);
      OnceStep(s, steps[0]);
      CleanIsOnce(Next(s, steps[0]), steps[1..]);
    }
  }

  /** In a clean run the batches taken by the gateway, one after the other, are a beginning of the events enqueued,
      each once and in their order. */
  lemma {:induction false} ExactlyOnce(steps: seq<Step>)
    requires Runs(INIT, steps) && Clean(INIT, steps)
    ensures Flat(After(INIT, steps).posted) <= Enqueued(steps)
    ensures After(INIT, steps).deleted <= |Flat(After(INIT, steps).posted)|
  {
    assert SenderInv(INIT) && Once(INIT);
    CleanIsOnce(INIT, steps);
    RunsKeepInv(INIT, steps);
    SavedAreEnqueued(INIT, steps);
    assert [] + Enqueued(steps) == Enqueued(steps);
  }

  // Nothing gets stuck.

  /** Steps other than new calls, ticks and death: what finishes the calls and flushes under way. */
  predicate Internal(step: Step) {
    step.Proceed? || step.TakeStop? || step.TakeFlush? || step.Get? || step.Post? || step.Delete?
  }

  function WorkerLoad(w: Worker): nat {
    match w
    case Selecting => 0
    case Getting => 3
    case Holding(_, _, posted) => if posted then 1 else 2
  }

  function WorkersLoad(ws: seq<Worker>): nat {
    if ws == [] then 0 else WorkersLoad(ws[..|ws| - 1]) + WorkerLoad(ws[|ws| - 1])
  }

  function CallerLoad(c: Caller): nat {
    match c
    case Free => 0
    case Flushing => 5
    case StopFlushing => 8
    case StopSending => 3
    case StopWaiting => 1
  }

  /** How many internal steps are left at most. */
  function Load(s: State): nat {
    CallerLoad(s.caller) + (if s.flushReq then 4 else 0) + (if s.stopReq then 1 else 0) + WorkersLoad(s.workers)
  }

  lemma {:induction false} LoadOfOne(ws: seq<Worker>)
    requires |ws| <= 1
    ensures WorkersLoad(ws) == if ws == [] then 0 else WorkerLoad(ws[0])
  {
    if ws != [] { assert ws[..0] == []; }
  }

  lemma {:induction false} LoadFalls(s: State, step: Step)
    requires ChannelsOk(s) && Enabled(s, step)
    ensures Internal(step) ==> Load(Next(s, step)) < Load(s)
    ensures step.Tick? ==> Load(Next(s, step)) == Load(s) + 3
  {
    ChannelsStep(s, step);
    LoadOfOne(s.workers);
    LoadOfOne(Next(s, step).workers);
    hide WorkersLoad;
  }

  /** A call under way can always go on, or the worker can. */
  lemma {:induction false} NeverStuck(s: State)
    requires ChannelsOk(s) && (!s.caller.Free? || s.flushReq || (s.workers != [] && !s.workers[0].Selecting?))
    ensures exists step :: Internal(step) && Enabled(s, step)
  {
    if s.workers == [] {
      assert Internal(Proceed) && Enabled(s, Proceed);
    } else {
      match s.workers[0]
      case Getting => assert Internal(Get(0, true)) && Enabled(s, Get(0, true));
      case Holding(_, _, posted) =>
        var step := if posted then Delete(0, true) else Post(0, true);
        assert Internal(step) && Enabled(s, step);
      case Selecting =>
        var step := if s.flushReq then TakeFlush(0) else if s.stopReq then TakeStop(0) else Proceed;
        assert Internal(step) && Enabled(s, step);
    }
  }

  function Ticks(steps: seq<Step>): nat {
    if steps == [] then 0 else (if steps[0].Tick? then 1 else 0) + Ticks(steps[1..])
  }

  /** However the steps are scheduled, there are at most as many internal ones as the load allows, and four more for
      each tick of the timer, the tick included. */
  lemma {:induction false} InternalStepsEnd(s: State, steps: seq<Step>)
    requires ChannelsOk(s) && Runs(s, steps) && forall i :: 0 <= i < |steps| ==> Internal(steps[i]) || steps[i].Tick?
    ensures |steps| <= Load(s) + 4 * Ticks(steps)
    decreases |steps|
  {
    hide ChannelsOk, Next, Enabled, Load;
    if steps != [] {
      ChannelsStep(s, steps[0]);
      LoadFalls(s, steps[0]);
      InternalStepsEnd(Next(s, steps[0]), steps[1..]);
    }
  }

  /** With one worker at most in every state of every run, a flush request or a Stop that is under way returns in every
      schedule that is run to its end: however often the timer fires, the other steps are bounded, and they do not end
      before the call returns. The events not deleted are then still in the table, whether the worker took the stop or
      the flush first. */
  lemma {:induction false} CallsReturn(before: seq<Step>, steps: seq<Step>)
    requires Runs(INIT, before) && Runs(After(INIT, before), steps)
    requires forall i :: 0 <= i < |steps| ==> Internal(steps[i]) || steps[i].Tick?
    ensures var s, s' := After(INIT, before), After(After(INIT, before), steps);
            && |s.workers| <= 1 && |s'.workers| <= 1
            && |steps| <= Load(s) + 4 * Ticks(steps)
            && ((forall step :: Internal(step) ==> !Enabled(s', step)) ==> s'.caller.Free? && !s'.flushReq)
            && s'.saved == s.saved && TableOk(s')
            && (s.caller.StopFlushing? && s'.caller.Free? ==> !s'.started && s'.workers == [])
  {
    assert SenderInv(INIT);
    hide Runs, After, Enabled, TableOk, PostedOk, HeldOk, Load, Enqueued, Ticks;
    var s := After(INIT, before);
    RunsKeepInv(INIT, before);
    RunsKeepInv(s, steps);
    InternalStepsEnd(s, steps);
    SavedAreEnqueued(s, steps);
    NothingEnqueued(steps);
    var s' := After(s, steps);
    if !s'.caller.Free? || s'.flushReq { NeverStuck(s'); }
    if s.caller.StopFlushing? && s'.caller.Free? { StopStops(s, steps); }
  }

  lemma {:induction false} NothingEnqueued(steps: seq<Step>)
    requires forall i :: 0 <= i < |steps| ==> Internal(steps[i]) || steps[i].Tick?
    ensures Enqueued(steps) == []
  {
    if steps != [] { NothingEnqueued(steps[1..]); }
  }

  predicate Stopping(s: State) {
    s.caller.StopFlushing? || s.caller.StopSending? || s.caller.StopWaiting?
  }

  /** A Stop under way ends with the sender stopped and no worker. */
  lemma {:induction false} StopStops(s: State, steps: seq<Step>)
    requires ChannelsOk(s) && Runs(s, steps)
    requires forall i :: 0 <= i < |steps| ==> Internal(steps[i]) || steps[i].Tick?
    requires Stopping(s) || !s.started
    ensures Stopping(After(s, steps)) || !After(s, steps).started
    decreases |steps|
  {
    if steps != [] {
      ChannelsStep(s, steps[0]);
      hide ChannelsOk;
      StopStops(Next(s, steps[0]), steps[1..]);
    }
  }
}
