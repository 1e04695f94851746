// Targets and their app lists: pkg/target/target.go, and the two helpers of
// pkg/state/check.go that rebuild a target from a recorded update.

module Options {
  datatype Option<+T> = None | Some(value: T)
}

module Targets {
  import opened Options

  datatype App = App(name: string, uri: string)

  datatype Target = Target(id: string, version: int, apps: seq<App>)

  const UNKNOWN := Target("unknown", -1, [])

  predicate IsUnknown(t: Target) {
    t.id == UNKNOWN.id && t.version == UNKNOWN.version
  }

  function Uris(apps: seq<App>): (r: seq<string>)
    ensures |r| == |apps|
    ensures forall i :: 0 <= i < |apps| ==> r[i] == apps[i].uri
  {
    seq(|apps|, i requires 0 <= i < |apps| => apps[i].uri)
  }

  lemma {:induction false} UrisOf(apps: seq<App>, uri: string)
    ensures uri in Uris(apps) <==> exists a :: a in apps && a.uri == uri
  {
    if uri in Uris(apps) {
      var i :| 0 <= i < |apps| && Uris(apps)[i] == uri;
      assert apps[i] in apps;
    }
    if exists a :: a in apps && a.uri == uri {
      var a :| a in apps && a.uri == uri;
      var i :| 0 <= i < |apps| && apps[i] == a;
      assert Uris(apps)[i] == uri;
    }
  }

  /** The first target of the highest version that the limit (0: none) admits. */
  function Latest(ts: seq<Target>, limit: int): Target {
    if ts == [] then UNKNOWN else
      var best := Latest(ts[..|ts| - 1], limit);
      var t := ts[|ts| - 1];
      if t.version > best.version && (limit <= 0 || t.version <= limit) then t else best
  }

  function ByVersion(ts: seq<Target>, version: int): (t: Target)
    ensures t == UNKNOWN || (t in ts && t.version == version)
  {
    if ts == [] then UNKNOWN
    else if ts[0].version == version then ts[0]
    else ByVersion(ts[1..], version)
  }

  function ById(ts: seq<Target>, id: string): (t: Target)
    ensures t == UNKNOWN || (t in ts && t.id == id)
    ensures (exists x :: x in ts && x.id == id) ==> t.id == id
  {
    if ts == [] then UNKNOWN
    else if ts[0].id == id then ts[0]
    else ById(ts[1..], id)
  }

  lemma {:induction false} LatestIsHighest(ts: seq<Target>, limit: int)
    ensures var l := Latest(ts, limit);
            && (l == UNKNOWN || l in ts)
            && l.version >= -1
            && (forall t :: t in ts && (limit <= 0 || t.version <= limit) ==> t.version <= l.version)
            && (l != UNKNOWN ==> l.version > -1 && (limit <= 0 || l.version <= limit))
  {
    if ts != [] {
      LatestIsHighest(ts[..|ts| - 1], limit);
      assert ts == ts[..|ts| - 1] + [ts[|ts| - 1]];
    }
  }

  /** Lookups find the first match. */
  lemma {:induction false} FirstVersionIsFound(ts: seq<Target>, version: int, i: nat)
    requires i < |ts| && ts[i].version == version && forall j :: 0 <= j < i ==> ts[j].version != version
    ensures ByVersion(ts, version) == ts[i]
  {
    if i > 0 { FirstVersionIsFound(ts[1..], version, i - 1); }
  }

  lemma {:induction false} FirstIdIsFound(ts: seq<Target>, id: string, i: nat)
    requires i < |ts| && ts[i].id == id && forall j :: 0 <= j < i ==> ts[j].id != id
    ensures ById(ts, id) == ts[i]
  {
    if i > 0 { FirstIdIsFound(ts[1..], id, i - 1); }
  }

  lemma {:induction false} FirstHighestIsLatest(ts: seq<Target>, limit: int, i: nat)
    requires i < |ts| && ts[i].version > UNKNOWN.version && (limit <= 0 || ts[i].version <= limit)
    requires forall j :: 0 <= j < i && (limit <= 0 || ts[j].version <= limit) ==> ts[j].version < ts[i].version
    requires forall j :: i < j < |ts| && (limit <= 0 || ts[j].version <= limit) ==> ts[j].version <= ts[i].version
    ensures Latest(ts, limit) == ts[i]
  {
    var front := ts[..|ts| - 1];
    LatestIsHighest(front, limit);
    if i < |front| { FirstHighestIsLatest(front, limit, i); }
  }

  /** ShortlistApps: no list keeps everything, an empty list keeps nothing. */
  function KeepNamed(apps: seq<App>, names: Option<seq<string>>): (r: seq<App>)
    ensures forall a :: a in r <==> a in apps && (names.None? || a.name in names.value)
    ensures |r| <= |apps|
  {
    if names.None? || apps == [] then apps
    else (if apps[0].name in names.value then [apps[0]] else []) + KeepNamed(apps[1..], names)
  }

  /** ShortlistAppsByURI: a missing and an empty list both keep nothing. */
  function KeepUris(apps: seq<App>, uris: seq<string>): (r: seq<App>)
    ensures forall a :: a in r <==> a in apps && a.uri in uris
    ensures uris == [] ==> r == []
  {
    if apps == [] then []
    else (if apps[0].uri in uris then [apps[0]] else []) + KeepUris(apps[1..], uris)
  }

  datatype AppDiff = AppDiff(add: seq<App>, remove: seq<App>, sync: seq<App>, update: seq<App>, updateTo: seq<App>)

  predicate Named(apps: seq<App>, name: string) {
    exists i :: 0 <= i < |apps| && apps[i].name == name
  }

  function AppMap(apps: seq<App>): (m: map<string, App>)
    ensures forall n :: n in m <==> Named(apps, n)
    ensures forall n :: n in m ==> m[n] in apps && m[n].name == n
  {
    if apps == [] then map[]
    else AppMap(apps[..|apps| - 1])[apps[|apps| - 1].name := apps[|apps| - 1]]
  }

  function DiffWalk(to: seq<App>, m: map<string, App>): AppDiff {
    if to == [] then AppDiff([], [], [], [], []) else
      var a := to[0];
      var d := DiffWalk(to[1..], m - {a.name});
      if a.name !in m then d.(add := [a] + d.add)
      else if m[a.name].uri != a.uri then d.(update := [m[a.name]] + d.update, updateTo := [a] + d.updateTo)
      else d.(sync := [a] + d.sync)
  }

  /** The apps of `from` whose name `to` does not mention, the last one of each name. */
  function Removed(from: seq<App>, to: seq<App>): seq<App> {
    if from == [] then []
    else if Named(from[1..], from[0].name) || Named(to, from[0].name) then Removed(from[1..], to)
    else [from[0]] + Removed(from[1..], to)
  }

  /** Target.Diff; the source lists the removed apps in map order, here they keep the order of `from`. */
  function Diff(from: seq<App>, to: seq<App>): AppDiff {
    DiffWalk(to, AppMap(from)).(remove := Removed(from, to))
  }

  predicate DistinctNames(apps: seq<App>) {
    forall i, j :: 0 <= i < j < |apps| ==> apps[i].name != apps[j].name
  }

  /** Of the apps of its name this one comes first. */
  predicate FirstOfName(apps: seq<App>, a: App) {
    apps != [] && if apps[0].name == a.name then apps[0] == a else FirstOfName(apps[1..], a)
  }

  /** Of the apps of its name this one comes last. */
  predicate LastOfName(apps: seq<App>, a: App) {
    apps != [] && if apps[|apps| - 1].name == a.name then apps[|apps| - 1] == a else LastOfName(apps[..|apps| - 1], a)
  }

  /** This app comes after another one of its name. */
  predicate Repeats(apps: seq<App>, a: App) {
    apps != [] && ((apps[0].name == a.name && a in apps[1..]) || Repeats(apps[1..], a))
  }

  /** Where one app of the new list goes. */
  lemma {:induction false} WalkPlaces(to: seq<App>, m: map<string, App>, a: App)
    ensures var d := DiffWalk(to, m);
            && (a in d.add <==> a in to && (a.name !in m || Repeats(to, a)))
            && (a in d.sync <==> FirstOfName(to, a) && a.name in m && m[a.name].uri == a.uri)
            && (a in d.updateTo <==> FirstOfName(to, a) && a.name in m && m[a.name].uri != a.uri)
  {
    if to != [] {
      WalkPlaces(to[1..], m - {to[0].name}, a);
      RepeatsIsIn(to[1..], a);
      assert a in to <==> a == to[0] || a in to[1..];
    }
  }

  lemma {:induction false} RepeatsIsIn(apps: seq<App>, a: App)
    ensures Repeats(apps, a) || FirstOfName(apps, a) || LastOfName(apps, a) ==> a in apps && Named(apps, a.name)
  {
    if apps != [] {
      RepeatsIsIn(apps[1..], a);
      RepeatsIsIn(apps[..|apps| - 1], a);
      if a in apps { var i :| 0 <= i < |apps| && apps[i] == a; }
    }
  }

  lemma {:induction false} WalkPairs(to: seq<App>, m: map<string, App>)
    ensures var d := DiffWalk(to, m);
            && |d.update| == |d.updateTo| && |d.add| + |d.sync| + |d.updateTo| == |to|
            && (forall i :: 0 <= i < |d.update| ==> d.updateTo[i].name in m && d.update[i] == m[d.updateTo[i].name])
  {
    if to != [] { WalkPairs(to[1..], m - {to[0].name}); }
  }

  function NamesOf(apps: seq<App>): set<string> {
    set a | a in apps :: a.name
  }

  function Joined(d: AppDiff, d': AppDiff): AppDiff {
    AppDiff(d.add + d'.add, d.remove + d'.remove, d.sync + d'.sync, d.update + d'.update, d.updateTo + d'.updateTo)
  }

  /** The lists keep the order of the new list: what comes first in it comes first in them. */
  lemma {:induction false} WalkInOrder(a: seq<App>, b: seq<App>, m: map<string, App>)
    ensures DiffWalk(a + b, m) == Joined(DiffWalk(a, m), DiffWalk(b, m - NamesOf(a)))
    decreases |a|
  {
    NamesOfMore(a);
    WalkNone(m);
    hide DiffWalk, NamesOf;
    var d := DiffWalk(b, m - NamesOf(a));
    if a == [] {
      assert a + b == b && m - NamesOf(a) == m;
      JoinNone(d);
    } else {
      var m' := m - {a[0].name};
      assert (a + b)[1..] == a[1..] + b && [a[0]] == (a + b)[..1] == a[..1];
      assert m' - NamesOf(a[1..]) == m - NamesOf(a);
      WalkInOrder(a[1..], b, m');
      WalkStep(a, m);
      WalkStep(a + b, m);
      JoinAgain(DiffWalk(a[..1], m), DiffWalk(a[1..], m'), d);
    }
  }

  lemma {:induction false} JoinAgain(a: AppDiff, b: AppDiff, c: AppDiff)
    ensures Joined(Joined(a, b), c) == Joined(a, Joined(b, c))
  {
  }

  lemma {:induction false} JoinNone(d: AppDiff)
    ensures Joined(AppDiff([], [], [], [], []), d) == d
  {
  }

  lemma {:induction false} WalkNone(m: map<string, App>)
    ensures DiffWalk([], m) == AppDiff([], [], [], [], [])
  {
  }

  lemma {:induction false} NamesOfMore(apps: seq<App>)
    ensures NamesOf(apps) == if apps == [] then {} else {apps[0].name} + NamesOf(apps[1..])
  {
    if apps != [] { assert forall a :: a in apps <==> a == apps[0] || a in apps[1..]; }
  }

  lemma {:induction false} WalkOne(a: App, m: map<string, App>)
    ensures var none := AppDiff([], [], [], [], []);
            DiffWalk([a], m) ==
            if a.name !in m then none.(add := [a])
            else if m[a.name].uri == a.uri then none.(sync := [a])
            else none.(update := [m[a.name]], updateTo := [a])
  {
    WalkNone(m - {a.name});
    assert [a][1..] == [];
  }

  lemma {:induction false} WalkStep(to: seq<App>, m: map<string, App>)
    requires to != []
    ensures DiffWalk(to, m) == Joined(DiffWalk(to[..1], m), DiffWalk(to[1..], m - {to[0].name}))
  {
    var a, d := to[0], DiffWalk(to[1..], m - {to[0].name});
    assert DiffWalk(to, m)
      == if a.name !in m then d.(add := [a] + d.add)
         else if m[a.name].uri == a.uri then d.(sync := [a] + d.sync)
         else d.(update := [m[a.name]] + d.update, updateTo := [a] + d.updateTo);
    assert to[..1] == [a] && d.remove == [] by { NothingRemovedYet(to[1..], m - {a.name}); }
    WalkOne(a, m);
    hide DiffWalk;
    assert [] + d.add == d.add && [] + d.sync == d.sync;
    assert [] + d.update == d.update && [] + d.updateTo == d.updateTo;
  }

  lemma {:induction false} NothingRemovedYet(to: seq<App>, m: map<string, App>)
    ensures DiffWalk(to, m).remove == []
  {
    if to != [] { NothingRemovedYet(to[1..], m - {to[0].name}); }
  }

  lemma {:induction false} MapHoldsLast(apps: seq<App>, a: App)
    ensures LastOfName(apps, a) <==> a.name in AppMap(apps) && AppMap(apps)[a.name] == a
  {
    if apps != [] { MapHoldsLast(apps[..|apps| - 1], a); }
  }

  lemma {:induction false} LastFromTheFront(apps: seq<App>, a: App)
    requires apps != []
    ensures LastOfName(apps, a) <==> LastOfName(apps[1..], a) || (apps[0] == a && !Named(apps[1..], a.name))
  {
    var rest := apps[1..];
    if rest != [] {
      var front := apps[..|apps| - 1];
      LastFromTheFront(front, a);
      assert front[1..] == rest[..|rest| - 1];
      assert rest == front[1..] + [apps[|apps| - 1]];
      RepeatsIsIn(rest, a);
    } else {
      assert apps[..|apps| - 1] == [];
    }
  }

  lemma {:induction false} RemovedAre(from: seq<App>, to: seq<App>, a: App)
    ensures a in Removed(from, to) <==> LastOfName(from, a) && !Named(to, a.name)
  {
    if from != [] {
      RemovedAre(from[1..], to, a);
      LastFromTheFront(from, a);
    }
  }

  /** Target.Diff sorts the apps by name and URI. Of each list one app counts for a name: the last in the old list,
      the first in the new one. Removed apps are only in the old list, unchanged ones in both, changed ones are paired
      with the old app of their name, and the rest of the new list is added, repeated names included. Each app of the
      new list is in one place only. */
  lemma {:induction false} DiffSplits(from: seq<App>, to: seq<App>)
    ensures var d := Diff(from, to);
            && (forall a :: a in d.add <==> a in to && (!Named(from, a.name) || Repeats(to, a)))
            && (forall a :: a in d.remove <==> LastOfName(from, a) && !Named(to, a.name))
            && (forall a :: a in d.sync <==> FirstOfName(to, a) && LastOfName(from, a))
            && (forall a :: a in d.updateTo <==> FirstOfName(to, a) && Named(from, a.name) && !LastOfName(from, a))
            && |d.update| == |d.updateTo| && |d.add| + |d.sync| + |d.updateTo| == |to|
            && (forall i :: 0 <= i < |d.update| ==>
                  && LastOfName(from, d.update[i]) && d.update[i].name == d.updateTo[i].name
                  && d.update[i].uri != d.updateTo[i].uri)
  {
    var m, d := AppMap(from), Diff(from, to);
    WalkPairs(to, m);
    forall a
      ensures a in d.add <==> a in to && (!Named(from, a.name) || Repeats(to, a))
      ensures a in d.remove <==> LastOfName(from, a) && !Named(to, a.name)
      ensures a in d.sync <==> FirstOfName(to, a) && LastOfName(from, a)
      ensures a in d.updateTo <==> FirstOfName(to, a) && Named(from, a.name) && !LastOfName(from, a)
    {
      WalkPlaces(to, m, a);
      MapHoldsLast(from, a);
      RemovedAre(from, to, a);
    }
    forall i | 0 <= i < |d.update|
      ensures LastOfName(from, d.update[i]) && d.update[i].uri != d.updateTo[i].uri
    {
      MapHoldsLast(from, d.update[i]);
      WalkPlaces(to, m, d.updateTo[i]);
      assert d.updateTo[i] in d.updateTo;
    }
  }

  /** With distinct names every app counts. */
  lemma {:induction false} DistinctCount(apps: seq<App>, a: App)
    requires DistinctNames(apps)
    ensures LastOfName(apps, a) <==> a in apps
    ensures FirstOfName(apps, a) <==> a in apps
    ensures !Repeats(apps, a)
  {
    RepeatsIsIn(apps, a);
    if apps != [] {
      DistinctCount(apps[1..], a);
      DistinctCount(apps[..|apps| - 1], a);
      if a in apps {
        var i :| 0 <= i < |apps| && apps[i] == a;
        assert i > 0 ==> apps[1..][i - 1] == a;
        assert i < |apps| - 1 ==> apps[..|apps| - 1][i] == a;
      }
    }
  }

  lemma {:induction false} NoRepeatsIsDistinct(apps: seq<App>)
    requires forall a :: a in apps ==> !Repeats(apps, a)
    ensures DistinctNames(apps)
  {
    if apps != [] {
      var rest := apps[1..];
      forall a | a in rest ensures !Repeats(rest, a) && a.name != apps[0].name {
        assert a in apps;
      }
      NoRepeatsIsDistinct(rest);
      assert forall j :: 0 < j < |apps| ==> apps[j] == rest[j - 1];
    }
  }

  // Rebuilding a target from a recorded update (check.go).

  function LastDash(s: string): (i: int)
    ensures -1 <= i < |s|
    ensures i >= 0 ==> s[i] == '-'
  {
    if s == "" then -1
    else if s[|s| - 1] == '-' then |s| - 1
    else LastDash(s[..|s| - 1])
  }

  predicate Digits(s: string) {
    s != "" && forall i :: 0 <= i < |s| ==> '0' <= s[i] <= '9'
  }

  function Decimal(s: string): nat
    requires forall i :: 0 <= i < |s| ==> '0' <= s[i] <= '9'
  {
    if s == "" then 0 else 10 * Decimal(s[..|s| - 1]) + (s[|s| - 1] as int - '0' as int)
  }

  const MAX_INT64 := 0x7fff_ffff_ffff_ffff

  /** strconv.Atoi on a text without a minus sign, with a 64-bit int. */
  function Atoi(s: string): Option<int> {
    var digits := if s != "" && s[0] == '+' then s[1..] else s;
    if Digits(digits) && Decimal(digits) <= MAX_INT64 then Some(Decimal(digits)) else None
  }

  /** extractTargetVersion: the number after the last dash of a target ID. */
  function VersionOf(id: string): Option<int> {
    var i := LastDash(id);
    if i < 0 then None else Atoi(id[i + 1..])
  }

  /** parseAppURIs; `parse` stands for compose.ParseAppRef on the URIs it accepts. */
  function ParseApps(uris: seq<string>, parse: map<string, App>): (r: Option<seq<App>>)
    ensures r.Some? ==> |r.value| == |uris|
  {
    if uris == [] then Some([])
    else if uris[0] !in parse then None
    else
      var rest := ParseApps(uris[1..], parse);
      if rest.None? then None else Some([parse[uris[0]]] + rest.value)
  }

  /** strconv.Itoa on a version. */
  function Numeral(n: nat): string {
    var digit := ('0' as int + n % 10) as char;
    if n < 10 then [digit] else Numeral(n / 10) + [digit]
  }

  lemma {:induction false} NumeralReads(n: nat)
    ensures Digits(Numeral(n)) && Decimal(Numeral(n)) == n
  {
    var s := Numeral(n);
    assert s[|s| - 1] as int - '0' as int == n % 10;
    if n < 10 {
      assert s[..|s| - 1] == "";
    } else {
      NumeralReads(n / 10);
      assert s[..|s| - 1] == Numeral(n / 10);
    }
  }

  lemma {:induction false} LastDashIs(prefix: string, s: string)
    requires '-' !in s
    ensures LastDash(prefix + "-" + s) == |prefix|
  {
    var all := prefix + "-" + s;
    if s != "" {
      LastDashIs(prefix, s[..|s| - 1]);
      assert all[..|all| - 1] == prefix + "-" + s[..|s| - 1];
      assert all[|all| - 1] == s[|s| - 1];
    }
  }

  /** A version written at the end of an ID is read back, whatever dashes precede it. */
  lemma {:induction false} VersionIsReadBack(prefix: string, n: nat)
    requires n <= MAX_INT64
    ensures VersionOf(prefix + "-" + Numeral(n)) == Some(n)
  {
    var s := Numeral(n);
    NumeralReads(n);
    LastDashIs(prefix, s);
    assert (prefix + "-" + s)[|prefix| + 1..] == s;
  }

  lemma {:induction false} AppsAreReadBack(apps: seq<App>, parse: map<string, App>)
    requires forall a :: a in apps ==> a.uri in parse && parse[a.uri] == a
    ensures ParseApps(Uris(apps), parse) == Some(apps)
  {
    if apps != [] {
      assert apps[0] in apps && Uris(apps)[0] == apps[0].uri;
      AppsAreReadBack(apps[1..], parse);
      assert Uris(apps)[1..] == Uris(apps[1..]);
      assert [apps[0]] + apps[1..] == apps;
    }
  }

  /** An app list can be read exactly if each of its URIs can, and then app by app. */
  lemma {:induction false} ParsesIff(uris: seq<string>, parse: map<string, App>)
    ensures ParseApps(uris, parse).Some? <==> forall uri :: uri in uris ==> uri in parse
    ensures var r := ParseApps(uris, parse);
            r.Some? ==> forall i :: 0 <= i < |uris| ==> uris[i] in parse && r.value[i] == parse[uris[i]]
  {
    if uris != [] {
      ParsesIff(uris[1..], parse);
      assert forall uri :: uri in uris <==> uri == uris[0] || uri in uris[1..];
    }
  }

  /** What follows the last dash is a version exactly if it is a decimal number of 64 bits, with or without a plus. */
  lemma {:induction false} VersionIff(prefix: string, s: string)
    requires '-' !in s
    ensures var digits := if s != "" && s[0] == '+' then s[1..] else s;
            VersionOf(prefix + "-" + s).Some? <==> Digits(digits) && Decimal(digits) <= MAX_INT64
  {
    LastDashIs(prefix, s);
    assert (prefix + "-" + s)[|prefix| + 1..] == s;
  }

  /** An ID without a dash has no version. */
  lemma {:induction false} NoDashNoVersion(id: string)
    requires '-' !in id
    ensures LastDash(id) == -1 && VersionOf(id).None?
  {
    if id != "" { NoDashNoVersion(id[..|id| - 1]); }
  }

  lemma {:induction false} FirstOfKept(apps: seq<App>, names: Option<seq<string>>, uris: seq<string>)
    requires apps != []
    ensures KeepNamed(apps, names) == KeepNamed(apps[..1], names) + KeepNamed(apps[1..], names)
    ensures KeepUris(apps, uris) == KeepUris(apps[..1], uris) + KeepUris(apps[1..], uris)
  {
    OneKept(apps[0], names, uris);
    assert apps[..1] == [apps[0]] && apps[..1] + apps[1..] == apps;
  }

  /** Shortlisting goes app by app and keeps the order. */
  lemma {:induction false} KeepsInOrder(a: seq<App>, b: seq<App>, names: Option<seq<string>>, uris: seq<string>)
    ensures KeepNamed(a + b, names) == KeepNamed(a, names) + KeepNamed(b, names)
    ensures KeepUris(a + b, uris) == KeepUris(a, uris) + KeepUris(b, uris)
  {
    NoneKept(names, uris);
    hide KeepNamed, KeepUris;
    if a == [] {
      assert a + b == b;
    } else {
      KeepsInOrder(a[1..], b, names, uris);
      FirstOfKept(a, names, uris);
      FirstOfKept(a + b, names, uris);
      assert (a + b)[1..] == a[1..] + b && (a + b)[..1] == a[..1];
    }
  }

  lemma {:induction false} NoneKept(names: Option<seq<string>>, uris: seq<string>)
    ensures KeepNamed([], names) == [] && KeepUris([], uris) == []
  {
  }

  lemma {:induction false} OneKept(a: App, names: Option<seq<string>>, uris: seq<string>)
    ensures KeepNamed([a], names) == if names.None? || a.name in names.value then [a] else []
    ensures KeepUris([a], uris) == if a.uri in uris then [a] else []
  {
    assert [a][1..] == [];
  }
}
