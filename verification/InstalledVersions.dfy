// The installed_versions table (internal/targets/target_db.go). A save updates every row
// of the target's name if the newest row has that name, and inserts a row otherwise, so
// that several rows may bear one name.

module InstalledVersions {
  import opened Options
  import opened Targets

  /** A row in the order of the ids; no row is ever deleted. */
  datatype Row = Row(name: string, meta: Target, correlation: string, current: bool, pending: bool, installed: bool)

  datatype Mode = Current | Pending | Failed

  /** RegisterInstallationStarted, ...Suceeded or ...Failed. A save makes up to two writes: it clears flags, then it
      updates or inserts; `writes` tells how many of them the database lets through. `read` tells whether the scan for
      the newest row finds it: an error of the scan itself goes unnoticed. */
  datatype Call = Call(target: Target, correlation: string, mode: Mode, read: bool, writes: nat)

  predicate Whole(c: Call) { c.writes >= 2 }

  predicate NewestIs(rows: seq<Row>, name: string) {
    rows != [] && rows[|rows| - 1].name == name
  }

  /** The save takes the target for the one installed last. */
  predicate Updates(rows: seq<Row>, c: Call) {
    c.read && NewestIs(rows, c.target.id)
  }

  function ClearRow(r: Row, mode: Mode): Row {
    match mode
    case Current => r.(current := false, pending := false)
    case Pending => r.(pending := false)
    case Failed => r
  }

  function Cleared(rows: seq<Row>, mode: Mode): (r: seq<Row>)
    ensures |r| == |rows| && forall i :: 0 <= i < |r| ==> r[i] == ClearRow(rows[i], mode)
  {
    seq(|rows|, i requires 0 <= i < |rows| => ClearRow(rows[i], mode))
  }

  function SetRow(r: Row, c: Call, wasInstalled: bool): Row {
    if r.name != c.target.id then r
    else match c.mode
      case Failed => r.(pending := false, installed := false)
      case _ => r.(correlation := c.correlation, current := c.mode.Current?, pending := c.mode.Pending?,
                   installed := c.mode.Current? || wasInstalled)
  }

  function Set(rows: seq<Row>, c: Call, wasInstalled: bool): (r: seq<Row>)
    ensures |r| == |rows| && forall i :: 0 <= i < |r| ==> r[i] == SetRow(rows[i], c, wasInstalled)
  {
    seq(|rows|, i requires 0 <= i < |rows| => SetRow(rows[i], c, wasInstalled))
  }

  function NewRow(c: Call): Row {
    Row(c.target.id, c.target, c.correlation, c.mode.Current?, c.mode.Pending?, c.mode.Current?)
  }

  function Saved(rows: seq<Row>, c: Call): seq<Row> {
    if c.writes == 0 then rows else
      var cleared := Cleared(rows, c.mode);
      if c.writes == 1 && !c.mode.Failed? then cleared
      else if Updates(rows, c) then Set(cleared, c, rows[|rows| - 1].installed)
      else cleared + [NewRow(c)]
  }

  function After(rows: seq<Row>, calls: seq<Call>): seq<Row> {
    if calls == [] then rows else Saved(After(rows, calls[..|calls| - 1]), calls[|calls| - 1])
  }

  const ZERO := Target("", 0, [])

  /** The name that GetCurrentTarget ends with: that of the last row marked current. */
  function CurrentName(rows: seq<Row>): string {
    if rows == [] then ""
    else if rows[|rows| - 1].current then rows[|rows| - 1].name
    else CurrentName(rows[..|rows| - 1])
  }

  predicate Failing(rows: seq<Row>, name: string) {
    exists i :: 0 <= i < |rows| && rows[i].name == name && !rows[i].installed
  }

  /** All rows marked current bear one name, all rows marked pending bear one name, and each row describes the
      target it is named after. */
  predicate Valid(rows: seq<Row>) {
    && (forall i, j :: 0 <= i < |rows| && 0 <= j < |rows| && rows[i].current && rows[j].current ==>
          rows[i].name == rows[j].name)
    && (forall i, j :: 0 <= i < |rows| && 0 <= j < |rows| && rows[i].pending && rows[j].pending ==>
          rows[i].name == rows[j].name)
    && (forall i :: 0 <= i < |rows| ==> rows[i].meta.id == rows[i].name)
  }

  class InstalledVersionsTable {
    var rows: seq<Row>

    constructor ()
      ensures rows == []
    {
      rows := [];
    }

    /** saveInstalledVersions. */
    method Save(c: Call) returns (ok: bool)
      modifies this
      ensures rows == Saved(old(rows), c)
      ensures ok <==> Whole(c) || (c.mode.Failed? && c.writes == 1)
    {
      var wasInstalled: Option<bool> := None;
      if c.read && rows != [] {
        var newest := rows[|rows| - 1];
        if newest.name == c.target.id { wasInstalled := Some(newest.installed); }
      }
      if c.writes == 0 { return false; }
      if !c.mode.Failed? {
        rows := Cleared(rows, c.mode);
        if c.writes == 1 { return false; }
      } else {
        assert Cleared(rows, Failed) == rows;
      }
      if wasInstalled.Some? {
        rows := Set(rows, c, wasInstalled.value);
      } else {
        rows := rows + [NewRow(c)];
      }
      return true;
    }

    /** GetCurrentTarget, from a table that can be read. */
    method GetCurrentTarget() returns (t: Target)
      requires Valid(rows)
      ensures t.id == CurrentName(rows)
      ensures t == ZERO || exists i :: 0 <= i < |rows| && rows[i].current && t == rows[i].meta
    {
      var name: string, meta := "", ZERO;
      for i := 0 to |rows|
        invariant name == CurrentName(rows[..i])
        invariant name != "" ==> meta.id == name && exists k :: 0 <= k < i && rows[k].current && meta == rows[k].meta
      {
        assert rows[..i + 1][..i] == rows[..i];
        if rows[i].current { name, meta := rows[i].name, rows[i].meta; }
      }
      assert rows[..|rows|] == rows;
      t := if name != "" then meta else ZERO;
    }

    /** IsFailingTarget. `read` tells whether its scan finds its first row: an error of the scan goes unnoticed. */
    method IsFailingTarget(name: string, read: bool) returns (failing: bool)
      ensures failing <==> read && Failing(rows, name)
    {
      if !read { return false; }
      var count := 0;
      for i := 0 to |rows|
        invariant count > 0 <==> Failing(rows[..i], name)
      {
        FailingMore(rows, i, name);
        if rows[i].name == name && !rows[i].installed { count := count + 1; }
      }
      assert rows[..|rows|] == rows;
      return count > 0;
    }
  }

  lemma {:induction false} FailingMore(rows: seq<Row>, n: nat, name: string)
    requires n < |rows|
    ensures Failing(rows[..n + 1], name) <==> Failing(rows[..n], name) || (rows[n].name == name && !rows[n].installed)
  {
    if Failing(rows[..n], name) {
      var i :| 0 <= i < n && rows[..n][i].name == name && !rows[..n][i].installed;
      assert rows[..n + 1][i] == rows[..n][i];
    }
    if rows[n].name == name && !rows[n].installed { assert rows[..n + 1][n] == rows[n]; }
    if Failing(rows[..n + 1], name) {
      var i :| 0 <= i < n + 1 && rows[..n + 1][i].name == name && !rows[..n + 1][i].installed;
      if i < n { assert rows[..n][i] == rows[i]; }
    }
  }

  // Flags.

  /** What a save leaves of one row. */
  lemma {:induction false} RowAfter(rows: seq<Row>, c: Call, i: nat)
    requires i < |Saved(rows, c)|
    ensures |rows| <= |Saved(rows, c)| <= |rows| + if c.writes == 0 then 0 else 1
    ensures var r := Saved(rows, c)[i];
            && r.name == (if i < |rows| then rows[i].name else c.target.id)
            && r.meta == (if i < |rows| then rows[i].meta else c.target)
            && (r.current <==>
                  if i < |rows| && !c.mode.Current?
                  then rows[i].current && !(c.mode.Pending? && Whole(c) && Updates(rows, c) && r.name == c.target.id)
                  else if c.writes == 0 then rows[i].current
                  else c.mode.Current? && Whole(c) && r.name == c.target.id && (i == |rows| || Updates(rows, c)))
            && (r.pending ==>
                  || (c.mode.Pending? && Whole(c) && r.name == c.target.id)
                  || (i < |rows| && rows[i].pending && (c.mode.Failed? || c.writes == 0)))
  {
  }

  lemma {:induction false} SaveKeepsValid(rows: seq<Row>, c: Call)
    requires Valid(rows)
    ensures Valid(Saved(rows, c))
  {
    hide Saved;
    var rows' := Saved(rows, c);
    forall i | 0 <= i < |rows'|
      ensures rows'[i].meta.id == rows'[i].name
      ensures rows'[i].current ==>
                if c.mode.Current? && c.writes > 0 then rows'[i].name == c.target.id
                else i < |rows| && rows[i].current && rows[i].name == rows'[i].name
      ensures rows'[i].pending ==>
                if c.mode.Pending? && c.writes > 0 then rows'[i].name == c.target.id
                else i < |rows| && rows[i].pending && rows[i].name == rows'[i].name
    {
      RowAfter(rows, c, i);
    }
  }

  /** In every table that calls can lead to, whole or cut short, all current rows share one name and all pending
      rows share one name, duplicates or not. */
  lemma {:induction false} OneCurrentOnePending(calls: seq<Call>)
    ensures Valid(After([], calls))
  {
    if calls != [] {
      OneCurrentOnePending(calls[..|calls| - 1]);
      SaveKeepsValid(After([], calls[..|calls| - 1]), calls[|calls| - 1]);
    }
  }

  function Starts(a: Target, b: Target, correlation: string): (calls: seq<Call>)
    ensures |calls| == 3
  {
    [Call(a, correlation, Pending, true, 2), Call(b, correlation, Pending, true, 2),
     Call(a, correlation, Pending, true, 2)]
  }

  /** Rows of one name do arise more than once. */
  lemma {:induction false} NamesRepeat(a: Target, b: Target, correlation: string)
    requires a.id != b.id
    ensures var rows := After([], Starts(a, b, correlation));
            |rows| == 3 && rows[0].name == rows[2].name == a.id
  {
    var calls := Starts(a, b, correlation);
    var c0, c1, c2 := calls[0], calls[1], calls[2];
    assert [c0, c1, c2][..2] == [c0, c1] && [c0, c1][..1] == [c0] && [c0][..0] == [];
    assert After([], [c0]) == Saved(After([], []), c0);
    assert After([], [c0, c1]) == Saved(After([], [c0]), c1);
  }

  // The current target.

  /** A name is the current one exactly if a row marked current bears it. */
  lemma {:induction false} CurrentNameIff(rows: seq<Row>, name: string)
    requires Valid(rows)
    ensures (exists i :: 0 <= i < |rows| && rows[i].current) ==>
              (CurrentName(rows) == name <==> exists i :: 0 <= i < |rows| && rows[i].current && rows[i].name == name)
    ensures (forall i :: 0 <= i < |rows| ==> !rows[i].current) ==> CurrentName(rows) == ""
  {
    if rows != [] && !rows[|rows| - 1].current {
      var front := rows[..|rows| - 1];
      CurrentNameIff(front, name);
      assert forall i :: 0 <= i < |rows| && rows[i].current ==> i < |front| && front[i] == rows[i];
    }
  }

  /** Whether a save unmarks the current rows: a start of the current target while its row is the newest. */
  predicate Unmarks(rows: seq<Row>, c: Call) {
    c.mode.Pending? && Whole(c) && Updates(rows, c) && c.target.id == CurrentName(rows)
  }

  /** The current target changes to the one installed, to none when the current target is started again while its
      row is the newest, or when a success is cut short after its first write; and in no other way. */
  lemma {:induction false} CurrentFollows(rows: seq<Row>, c: Call)
    requires Valid(rows)
    ensures CurrentName(Saved(rows, c))
            == if c.mode.Current? && Whole(c) then c.target.id
               else if (c.mode.Current? && c.writes == 1) || Unmarks(rows, c) then ""
               else CurrentName(rows)
  {
    hide Saved, CurrentName;
    var rows' := Saved(rows, c);
    SaveKeepsValid(rows, c);
    CurrentNameIff(rows, CurrentName(rows));
    CurrentNameIff(rows', if c.mode.Current? && c.writes > 0 then c.target.id else CurrentName(rows));
    forall i | 0 <= i < |rows'|
      ensures rows'[i].current <==>
                if c.mode.Current? && c.writes > 0
                then Whole(c) && rows'[i].name == c.target.id && (i == |rows| || Updates(rows, c))
                else i < |rows| && rows[i].current && !Unmarks(rows, c)
      ensures i < |rows| ==> rows'[i].name == rows[i].name
    {
      RowAfter(rows, c, i);
      if i < |rows| && rows[i].current { assert rows[i].name == CurrentName(rows); }
    }
    LastIsSaved(rows, c);
    assert |rows| <= |rows'|;
    if exists i :: 0 <= i < |rows| && rows[i].current {
      var i :| 0 <= i < |rows| && rows[i].current;
      assert rows'[i].name == rows[i].name;
    }
  }

  lemma {:induction false} LastIsSaved(rows: seq<Row>, c: Call)
    ensures |rows| <= |Saved(rows, c)|
    ensures c.mode.Current? && Whole(c) ==>
              var rows' := Saved(rows, c);
              rows' != [] && rows'[|rows'| - 1].current && rows'[|rows'| - 1].name == c.target.id
  {
  }

  /** The current target outlives every series of starts and failures of other targets, and failures of its own. */
  lemma {:induction false} CurrentSurvives(rows: seq<Row>, calls: seq<Call>)
    requires Valid(rows)
    requires forall i :: 0 <= i < |calls| ==>
               calls[i].mode.Failed? || (calls[i].mode.Pending? && calls[i].target.id != CurrentName(rows))
    ensures Valid(After(rows, calls)) && CurrentName(After(rows, calls)) == CurrentName(rows)
  {
    if calls != [] {
      var before, c := calls[..|calls| - 1], calls[|calls| - 1];
      CurrentSurvives(rows, before);
      SaveKeepsValid(After(rows, before), c);
      CurrentFollows(After(rows, before), c);
    }
  }

  // Failing targets.

  /** The newest row of this name says that it was not installed. */
  predicate NewestNotInstalled(rows: seq<Row>, name: string) {
    exists i :: 0 <= i < |rows| && rows[i].name == name && !rows[i].installed
                && forall j :: i < j < |rows| ==> rows[j].name != name
  }

  /** A save of another mode than success marks no row as installed that was not, but for the newest row's flag. */
  lemma {:induction false} InstalledAfter(rows: seq<Row>, c: Call, i: nat)
    requires i < |Saved(rows, c)| && (c.mode.Current? ==> Saved(rows, c)[i].name != c.target.id)
    requires i < |rows| ==> !rows[i].installed
    ensures Saved(rows, c)[i].installed
            ==> Updates(rows, c) && rows[|rows| - 1].installed && Saved(rows, c)[i].name == c.target.id
  {
  }

  lemma {:induction false} StaysNotInstalled(rows: seq<Row>, c: Call, name: string)
    requires NewestNotInstalled(rows, name) && (c.mode.Current? ==> c.target.id != name)
    ensures NewestNotInstalled(Saved(rows, c), name)
  {
    hide Saved;
    var rows' := Saved(rows, c);
    var i :| 0 <= i < |rows| && rows[i].name == name && !rows[i].installed
             && forall j :: i < j < |rows| ==> rows[j].name != name;
    LastIsSaved(rows, c);
    forall j | 0 <= j < |rows'| ensures rows'[j].name == if j < |rows| then rows[j].name else c.target.id {
      RowAfter(rows, c, j);
    }
    var k := if |rows'| > |rows| && c.target.id == name then |rows| else i;
    if k == |rows| { RowAfter(rows, c, k); }
    InstalledAfter(rows, c, k);
    assert |rows'| <= |rows| + 1 by { RowAfter(rows, c, i); }
    assert rows'[k].name == name && !rows'[k].installed;
  }

  lemma {:induction false} FailureIsRecorded(rows: seq<Row>, c: Call)
    requires c.mode.Failed? && c.writes > 0
    ensures NewestNotInstalled(Saved(rows, c), c.target.id)
  {
    var rows' := Saved(rows, c);
    assert rows'[|rows'| - 1].name == c.target.id && !rows'[|rows'| - 1].installed;
  }

  lemma {:induction false} StaysNotInstalledAfter(rows: seq<Row>, calls: seq<Call>, name: string)
    requires NewestNotInstalled(rows, name)
    requires forall i :: 0 <= i < |calls| && calls[i].mode.Current? ==> calls[i].target.id != name
    ensures NewestNotInstalled(After(rows, calls), name)
  {
    if calls != [] {
      StaysNotInstalledAfter(rows, calls[..|calls| - 1], name);
      StaysNotInstalled(After(rows, calls[..|calls| - 1]), calls[|calls| - 1], name);
    }
  }

  /** A target whose failure has been recorded is failing after every series of calls without a success of it. */
  lemma {:induction false} FailingStays(rows: seq<Row>, failed: Call, calls: seq<Call>)
    requires failed.mode.Failed? && failed.writes > 0
    requires forall i :: 0 <= i < |calls| && calls[i].mode.Current? ==> calls[i].target.id != failed.target.id
    ensures Failing(After(Saved(rows, failed), calls), failed.target.id)
  {
    FailureIsRecorded(rows, failed);
    StaysNotInstalledAfter(Saved(rows, failed), calls, failed.target.id);
  }

  /** Whether a target is failing after a call. Other targets are not concerned. A failure makes its target failing. A
      success ends it if it sees the target's row as the newest one. A start leaves it as the newest row says if it sees
      that row, and makes the target failing if it does not: it then inserts a row that says not installed. */
  lemma {:induction false} FailingAfterIff(rows: seq<Row>, c: Call, name: string)
    ensures Failing(Saved(rows, c), name) <==>
              if c.target.id != name || c.writes == 0 || (c.writes == 1 && !c.mode.Failed?) then Failing(rows, name)
              else match c.mode
                case Failed => true
                case Current => Failing(rows, name) && !Updates(rows, c)
                case Pending => !Updates(rows, c) || !rows[|rows| - 1].installed
  {
    hide Saved;
    var rows' := Saved(rows, c);
    FailingRows(rows, c, name);
    LastIsSaved(rows, c);
    if Failing(rows, name) {
      var i :| 0 <= i < |rows| && rows[i].name == name && !rows[i].installed;
      FailingRow(rows, c, i);
    }
    if Failing(rows', name) {
      var i :| 0 <= i < |rows'| && rows'[i].name == name && !rows'[i].installed;
      FailingRow(rows, c, i);
    }
    if rows' != [] { FailingRow(rows, c, |rows'| - 1); }
  }

  /** What a save leaves of the flag of one row. */
  lemma {:induction false} FailingRow(rows: seq<Row>, c: Call, i: nat)
    requires i < |Saved(rows, c)|
    ensures |rows| <= |Saved(rows, c)|
    ensures var r := Saved(rows, c)[i];
            && r.name == (if i < |rows| then rows[i].name else c.target.id)
            && r.installed ==
               if i >= |rows| then c.mode.Current?
               else if c.writes == 0 || (c.writes == 1 && !c.mode.Failed?) then rows[i].installed
               else if Updates(rows, c) && rows[i].name == c.target.id
               then c.mode.Current? || (c.mode.Pending? && rows[|rows| - 1].installed)
               else rows[i].installed
  {
  }

  lemma {:induction false} FailingRows(rows: seq<Row>, c: Call, name: string)
    ensures |Saved(rows, c)|
            == |rows| + if c.writes == 0 || (c.writes == 1 && !c.mode.Failed?) || Updates(rows, c) then 0 else 1
    ensures Updates(rows, c) ==> rows != [] && rows[|rows| - 1].name == c.target.id
  {
  }

  /** A call that does no harm to a target: for another target, a success, or a start that sees its row as newest. */
  predicate Harmless(rows: seq<Row>, c: Call, name: string) {
    c.target.id != name || c.mode.Current? || (c.mode.Pending? && Updates(rows, c))
  }

  predicate AllHarmless(rows: seq<Row>, calls: seq<Call>, name: string) {
    calls == [] ||
    (AllHarmless(rows, calls[..|calls| - 1], name)
     && Harmless(After(rows, calls[..|calls| - 1]), calls[|calls| - 1], name))
  }

  /** A target that is not failing stays so through calls for other targets, successes, and starts of it while its row
      is the newest. */
  lemma {:induction false} NotFailingStays(rows: seq<Row>, calls: seq<Call>, name: string)
    requires !Failing(rows, name) && AllHarmless(rows, calls, name)
    ensures !Failing(After(rows, calls), name)
  {
    if calls != [] {
      var before, c := calls[..|calls| - 1], calls[|calls| - 1];
      NotFailingStays(rows, before, name);
      FailingAfterIff(After(rows, before), c, name);
    }
  }

  /** A target installed once and started again while its row is the newest is not failing. */
  lemma {:induction false} StartedAgain(rows: seq<Row>, t: Target, first: string, second: string)
    requires !Failing(rows, t.id)
    ensures !Failing(After(rows, [Call(t, first, Current, true, 2), Call(t, second, Pending, true, 2)]), t.id)
  {
    var c0, c1 := Call(t, first, Current, true, 2), Call(t, second, Pending, true, 2);
    assert [c0, c1][..1] == [c0] && [c0][..0] == [];
    assert After(rows, []) == rows && After(rows, [c0]) == Saved(rows, c0);
    LastIsSaved(rows, c0);
    assert AllHarmless(rows, [], t.id) && AllHarmless(rows, [c0], t.id);
    assert Harmless(Saved(rows, c0), c1, t.id);
    hide Saved;
    NotFailingStays(rows, [c0, c1], t.id);
  }

  /** A save inserts a row exactly if it does not see its target's row as the newest one: because it is not, or because
      the scan fails. So one target can get two rows in a row. */
  lemma {:induction false} InsertsIff(rows: seq<Row>, c: Call)
    requires Whole(c)
    ensures |Saved(rows, c)| == |rows| + 1 <==> !c.read || rows == [] || rows[|rows| - 1].name != c.target.id
    ensures |Saved(rows, c)| == |rows| + 1 ==>
              Saved(rows, c)[|rows|].name == c.target.id && Saved(rows, c)[|rows|].meta == c.target
  {
  }

  // The pending target, and the correlation.

  /** Which rows are pending after a call: those of a target that has been started, none after a success, and after a
      failure those pending before, without the target's own if it sees its row as the newest. */
  lemma {:induction false} PendingAfterIff(rows: seq<Row>, c: Call, i: nat)
    requires i < |Saved(rows, c)|
    ensures var r := Saved(rows, c)[i];
            r.pending <==>
              if c.writes == 0 then rows[i].pending
              else match c.mode
                case Current => false
                case Pending => Whole(c) && r.name == c.target.id && (i == |rows| || Updates(rows, c))
                case Failed => i < |rows| && rows[i].pending && !(Updates(rows, c) && r.name == c.target.id)
  {
  }

  /** The newest row of a target that has been started or has succeeded bears the correlation of that call; no other
      call changes the correlation of a row. */
  lemma {:induction false} CorrelationFollows(rows: seq<Row>, c: Call, i: nat)
    requires i < |Saved(rows, c)|
    ensures var rows' := Saved(rows, c);
            && (Whole(c) && !c.mode.Failed? && i == |rows'| - 1 ==>
                  rows'[i].name == c.target.id && rows'[i].correlation == c.correlation)
            && (i < |rows| && (c.mode.Failed? || rows[i].name != c.target.id) ==>
                  rows'[i].correlation == rows[i].correlation)
            && (i >= |rows| ==> rows'[i].correlation == c.correlation)
  {
  }

  /** A success ends the failing state of its target exactly if the newest row is the target's or no row of it was
      failing: rows of an earlier attempt are not touched when other targets have been saved since. */
  lemma {:induction false} SuccessClearsIff(rows: seq<Row>, c: Call)
    requires c.mode.Current? && Whole(c)
    ensures !Failing(Saved(rows, c), c.target.id) <==> Updates(rows, c) || !Failing(rows, c.target.id)
  {
    FailingAfterIff(rows, c, c.target.id);
  }

  function FailureThenSuccesses(a: Target, b: Target, correlation: string): (calls: seq<Call>)
    ensures |calls| == 3
  {
    [Call(a, correlation, Failed, true, 2), Call(b, correlation, Current, true, 2),
     Call(a, correlation, Current, true, 2)]
  }

  /** A target that failed, was followed by another one and then succeeded is still said to be failing. */
  lemma {:induction false} SuccessfulYetFailing(a: Target, b: Target, correlation: string)
    requires a.id != b.id
    ensures var rows := After([], FailureThenSuccesses(a, b, correlation));
            CurrentName(rows) == a.id && Failing(rows, a.id)
  {
    var calls := FailureThenSuccesses(a, b, correlation);
    var c0, c1, c2 := calls[0], calls[1], calls[2];
    assert [c0, c1, c2][..2] == [c0, c1] && [c0, c1][..1] == [c0] && [c0][..0] == [];
    var one := After([], [c0]);
    assert one == Saved(After([], []), c0);
    assert After([], [c0, c1]) == Saved(one, c1);
    var rows := After([], [c0, c1, c2]);
    assert rows[0].name == a.id && !rows[0].installed;
    assert rows[2].current;
  }
}
