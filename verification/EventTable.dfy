// The report_events table (internal/events/event_db.go). A row's id is one more than the
// highest id in the table, so ids start again once the table has been emptied.

module EventTables {
  import opened Options

  /** The fields of a DgUpdateEvent, but for its time, details and type version. */
  datatype Event = Event(
    id: string, correlation: string, kind: string, success: Option<bool>, target: string, version: string)

  datatype Row = Row(id: int, event: Event)

  const MAX_EVENTS: nat := 6
  const NO_ID := -1

  predicate Increasing(rows: seq<Row>) {
    && (forall i :: 0 <= i < |rows| ==> rows[i].id >= 1)
    && (forall i, j :: 0 <= i < j < |rows| ==> rows[i].id < rows[j].id)
  }

  function Events(rows: seq<Row>): (r: seq<Event>)
    ensures |r| == |rows| && forall i :: 0 <= i < |rows| ==> r[i] == rows[i].event
  {
    seq(|rows|, i requires 0 <= i < |rows| => rows[i].event)
  }

  function MaxId(rows: seq<Row>): int {
    if rows == [] then NO_ID else
      var m := MaxId(rows[..|rows| - 1]);
      var id := rows[|rows| - 1].id;
      if m < id then id else m
  }

  function NextId(rows: seq<Row>): int {
    if rows == [] then 1 else MaxId(rows) + 1
  }

  function Inserted(rows: seq<Row>, e: Event): seq<Row> {
    rows + [Row(NextId(rows), e)]
  }

  /** SELECT with LIMIT, in id order. */
  function Batch(rows: seq<Row>): (r: seq<Row>)
    ensures r <= rows
  {
    if |rows| <= MAX_EVENTS then rows else rows[..MAX_EVENTS]
  }

  /** What DELETE ... WHERE id <= maxId leaves. */
  function Above(rows: seq<Row>, maxId: int): seq<Row> {
    if rows == [] then []
    else (if rows[0].id <= maxId then [] else [rows[0]]) + Above(rows[1..], maxId)
  }

  lemma {:induction false} MaxIsLast(rows: seq<Row>)
    requires Increasing(rows) && rows != []
    ensures MaxId(rows) == rows[|rows| - 1].id
  {
    if |rows| > 1 {
      MaxIsLast(rows[..|rows| - 1]);
    } else {
      assert rows[..0] == [];
    }
  }

  lemma {:induction false} InsertKeepsIncreasing(rows: seq<Row>, e: Event)
    requires Increasing(rows)
    ensures Increasing(Inserted(rows, e)) && Events(Inserted(rows, e)) == Events(rows) + [e]
  {
    if rows != [] { MaxIsLast(rows); }
  }

  /** Deleting up to the id of a row deletes exactly the rows up to that row. */
  lemma {:induction false} AboveIs(rows: seq<Row>, n: nat, maxId: int)
    requires Increasing(rows) && n <= |rows|
    requires forall i :: 0 <= i < n ==> rows[i].id <= maxId
    requires forall i :: n <= i < |rows| ==> rows[i].id > maxId
    ensures Above(rows, maxId) == rows[n..]
  {
    if rows != [] {
      AboveIs(rows[1..], if n > 0 then n - 1 else 0, maxId);
      if n > 0 {
        assert rows[n..] == rows[1..][n - 1..];
      } else {
        assert rows == [rows[0]] + rows[1..];
      }
    }
  }

  /** A batch stays the beginning of the table while rows are inserted, and its highest id marks it off: this is
      all that the delete relies on, although ids are used again after the table has been emptied. */
  lemma {:induction false} DeletesTheBatch(rows: seq<Row>, batch: seq<Row>)
    requires Increasing(rows) && batch != [] && batch <= rows
    ensures Above(rows, MaxId(batch)) == rows[|batch|..] && Increasing(rows[|batch|..])
  {
    assert Increasing(batch);
    MaxIsLast(batch);
    AboveIs(rows, |batch|, MaxId(batch));
  }

  /** Ids are used again: a row inserted after the table has been emptied gets the id of an earlier row. */
  lemma {:induction false} IdsStartAgain(e: Event, e': Event)
    ensures var one := Inserted([], e);
            Inserted(Above(one, MaxId(one)), e')[0].id == one[0].id
  {
    assert Increasing([]);
    InsertKeepsIncreasing([], e);
    DeletesTheBatch(Inserted([], e), Inserted([], e));
  }

  class EventTable {
    var rows: seq<Row>

    ghost predicate Valid() reads this {
      Increasing(rows)
    }

    constructor ()
      ensures Valid() && rows == []
    {
      rows := [];
    }

    /** SaveEvent; `ok` tells whether the database can be opened and written. */
    method SaveEvent(e: Event, ok: bool) returns (saved: bool)
      requires Valid()
      modifies this
      ensures Valid() && saved == ok
      ensures rows == if ok then Inserted(old(rows), e) else old(rows)
      ensures Events(rows) == Events(old(rows)) + if ok then [e] else []
    {
      if !ok { return false; }
      InsertKeepsIncreasing(rows, e);
      rows := Inserted(rows, e);
      return true;
    }

    /** GetEvents: the first rows of the table and the highest id among them. */
    method GetEvents(ok: bool) returns (r: Option<(seq<Event>, int)>)
      requires Valid()
      ensures r.None? <==> !ok
      ensures ok ==> r.value.0 == Events(Batch(rows)) && r.value.1 == MaxId(Batch(rows))
      ensures ok && rows != [] ==> r.value.1 == rows[|r.value.0| - 1].id
    {
      if !ok { return None; }
      var cursor := Batch(rows);
      var events: seq<Event>, maxId := [], NO_ID;
      for i := 0 to |cursor|
        invariant events == Events(cursor[..i])
        invariant maxId == MaxId(cursor[..i])
      {
        assert cursor[..i + 1][..i] == cursor[..i];
        if maxId < cursor[i].id { maxId := cursor[i].id; }
        events := events + [cursor[i].event];
      }
      assert cursor[..|cursor|] == cursor;
      if rows != [] { MaxIsLast(cursor); }
      return Some((events, maxId));
    }

    /** DeleteEvents. */
    method DeleteEvents(maxId: int, ok: bool) returns (deleted: bool)
      requires Valid()
      modifies this
      ensures Valid() && deleted == ok
      ensures rows == if ok then Above(old(rows), maxId) else old(rows)
    {
      if !ok { return false; }
      AboveKeepsIncreasing(rows, maxId);
      rows := Above(rows, maxId);
      return true;
    }

    /** FlushEvents: get, post, delete, with nothing in between. `posted` is the batch that the gateway took, if any. */
    method FlushEvents(get: bool, post: bool, delete: bool) returns (ok: bool, posted: seq<Event>)
      requires Valid()
      modifies this
      ensures Valid()
      ensures posted == if get && post then Events(Batch(old(rows))) else []
      ensures get && post ==> |posted| == if |old(rows)| < 6 then |old(rows)| else 6
      ensures rows == if get && post && delete then old(rows)[|posted|..] else old(rows)
      ensures ok <==> get && (rows == old(rows) == [] || (post && delete))
    {
      var got := GetEvents(get);
      if got.None? { return false, []; }
      var (events, maxId) := got.value;
      if events == [] { return true, []; }
      if !post { return false, []; }
      DeletesTheBatch(rows, Batch(rows));
      ok := DeleteEvents(maxId, delete);
      return ok, events;
    }

    /** k turns of the worker's loop in which every flush succeeds: the first 6k events are posted in their order, each
        once, and the others stay. */
    method Drain(k: nat) returns (posted: seq<Event>)
      requires Valid()
      modifies this
      ensures Valid()
      ensures (posted, rows) == Drained(old(rows), k)
      ensures var n := Share(|old(rows)|, k);
              posted == Events(old(rows))[..n] && rows == old(rows)[n..]
    {
      hide Share, Drained, Batch, Increasing;
      ghost var rows0 := rows;
      DrainsInOrder(rows0, k);
      posted := [];
      ghost var left := Drained(rows0, k);
      assert [] + left.0 == left.0;
      for i := 0 to k
        invariant Valid()
        invariant left == Drained(rows, k - i)
        invariant Drained(rows0, k) == (posted + left.0, left.1)
      {
        DrainStep(rows, k - i);
        var _, batch := FlushEvents(true, true, true);
        ghost var rest := Drained(rows, k - i - 1);
        assert posted + (batch + rest.0) == posted + batch + rest.0;
        posted := posted + batch;
        left := rest;
      }
      DrainNone(rows);
      assert posted + [] == posted;
    }
  }

  lemma {:induction false} DrainNone(rows: seq<Row>)
    ensures Drained(rows, 0) == ([], rows)
  {
  }

  lemma {:induction false} DrainStep(rows: seq<Row>, k: nat)
    requires k > 0
    ensures var batch := Events(Batch(rows));
            var rest := Drained(rows[|batch|..], k - 1);
            Drained(rows, k) == (batch + rest.0, rest.1)
  {
  }

  /** The rows that stay are the last ones. */
  lemma {:induction false} AboveKeepsIncreasing(rows: seq<Row>, maxId: int)
    requires Increasing(rows)
    ensures Increasing(Above(rows, maxId))
  {
    var n := 0;
    while n < |rows| && rows[n].id <= maxId
      invariant n <= |rows| && forall i :: 0 <= i < n ==> rows[i].id <= maxId
    {
      n := n + 1;
    }
    AboveIs(rows, n, maxId);
  }

  // Draining.

  /** What k flushes in a row post and leave when every one of them succeeds. */
  function Drained(rows: seq<Row>, k: nat): (seq<Event>, seq<Row>)
    decreases k
  {
    if k == 0 then ([], rows) else
      var rest := Drained(rows[|Batch(rows)|..], k - 1);
      (Events(Batch(rows)) + rest.0, rest.1)
  }

  /** How many of n events k flushes post. */
  function Share(n: nat, k: nat): (r: nat)
    ensures r <= n && n - r == if n <= MAX_EVENTS * k then 0 else n - MAX_EVENTS * k
  {
    if n <= MAX_EVENTS * k then n else MAX_EVENTS * k
  }

  lemma {:induction false} ShareStep(n: nat, k: nat)
    requires k > 0
    ensures var b := if n <= MAX_EVENTS then n else MAX_EVENTS; Share(n, k) == b + Share(n - b, k - 1)
  {
  }

  /** k successful flushes post the first 6k events in their order, each once, and leave the others. */
  lemma {:induction false} DrainsInOrder(rows: seq<Row>, k: nat)
    ensures var n := Share(|rows|, k);
            && Drained(rows, k).0 == Events(rows)[..n]
            && Drained(rows, k).1 == rows[n..]
            && |Drained(rows, k).1| == if |rows| <= MAX_EVENTS * k then 0 else |rows| - MAX_EVENTS * k
    decreases k
  {
    hide Share, Events;
    if k == 0 {
      ShareNone(|rows|);
      assert Events(rows)[..0] == [] && rows[0..] == rows;
    } else {
      var b, n := |Batch(rows)|, Share(|rows|, k);
      ShareStep(|rows|, k);
      DrainsInOrder(rows[b..], k - 1);
      assert Batch(rows) == rows[..b];
      hide Batch;
      EventsInParts(rows, b, n);
    }
  }

  lemma {:induction false} ShareNone(n: nat)
    ensures Share(n, 0) == 0
  {
  }

  lemma {:induction false} EventsInParts(rows: seq<Row>, b: nat, n: nat)
    requires b <= n <= |rows|
    ensures Events(rows[..b]) + Events(rows[b..])[..n - b] == Events(rows)[..n]
    ensures rows[b..][n - b..] == rows[n..]
  {
  }
}
