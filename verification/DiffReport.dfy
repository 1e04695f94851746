// The difference of two targets in blobs and bytes (pkg/api/diff.go). Maps are walked
// in any order.

module DiffReports {
  import FreeSpace

  /** A node of an app tree: its descriptor, the locator of its reference, and what the app adds for it at run time. */
  datatype Node = Node(digest: string, size: nat, locator: string, runtimeSize: nat)

  datatype BlobInfo = BlobInfo(digest: string, size: nat, locator: string, storeSize: int, runtimeSize: nat)

  /** An app: the nodes of its tree in the order of the walk. */
  type App = seq<Node>

  type BlobMap = map<string, BlobInfo>

  /** Blobs by the locator of the app that they belong to. */
  type Groups = map<string, seq<BlobInfo>>

  function InfoOf(n: Node, block: FreeSpace.Positive): BlobInfo {
    BlobInfo(n.digest, n.size, n.locator, FreeSpace.Align(n.size, block), n.runtimeSize)
  }

  function NodesOf(apps: seq<App>): seq<Node> {
    if apps == [] then [] else NodesOf(apps[..|apps| - 1]) + apps[|apps| - 1]
  }

  /** The last node of a digest counts. */
  ghost predicate LastOf(nodes: seq<Node>, n: Node) {
    exists i :: 0 <= i < |nodes| && nodes[i] == n && forall j :: i < j < |nodes| ==> nodes[j].digest != n.digest
  }

  /** Exactly the digests of the nodes, each with the last node that has it. */
  ghost predicate Collects(blobs: BlobMap, nodes: seq<Node>, block: FreeSpace.Positive) {
    && (forall i :: 0 <= i < |nodes| ==> nodes[i].digest in blobs)
    && (forall d :: d in blobs ==> exists n :: LastOf(nodes, n) && n.digest == d && blobs[d] == InfoOf(n, block))
  }

  lemma {:induction false} LastOfMore(nodes: seq<Node>, n: Node, m: Node)
    ensures LastOf(nodes + [n], n)
    ensures LastOf(nodes, m) && m.digest != n.digest ==> LastOf(nodes + [n], m)
  {
    var all := nodes + [n];
    assert all[|nodes|] == n;
    if LastOf(nodes, m) && m.digest != n.digest {
      var i :| 0 <= i < |nodes| && nodes[i] == m && forall j :: i < j < |nodes| ==> nodes[j].digest != m.digest;
      assert all[i] == m;
    }
  }

  lemma {:induction false} CollectsMore(blobs: BlobMap, nodes: seq<Node>, n: Node, block: FreeSpace.Positive)
    requires Collects(blobs, nodes, block)
    ensures Collects(blobs[n.digest := InfoOf(n, block)], nodes + [n], block)
  {
    hide LastOf, InfoOf;
    var all, blobs' := nodes + [n], blobs[n.digest := InfoOf(n, block)];
    forall d | d in blobs' ensures exists m :: LastOf(all, m) && m.digest == d && blobs'[d] == InfoOf(m, block) {
      LastOfMore(nodes, n, n);
      if d != n.digest {
        var m :| LastOf(nodes, m) && m.digest == d && blobs[d] == InfoOf(m, block);
        LastOfMore(nodes, n, m);
      }
    }
    assert forall i :: 0 <= i < |all| ==> all[i] == if i < |nodes| then nodes[i] else n;
  }

  /** getAppBlobs. */
  method AppBlobs(apps: seq<App>, block: FreeSpace.Positive) returns (blobs: BlobMap)
    ensures Collects(blobs, NodesOf(apps), block)
  {
    blobs := map[];
    ghost var nodes: seq<Node> := [];
    for i := 0 to |apps|
      invariant nodes == NodesOf(apps[..i]) && Collects(blobs, nodes, block)
    {
      var app := apps[i];
      for k := 0 to |app|
        invariant nodes == NodesOf(apps[..i]) + app[..k] && Collects(blobs, nodes, block)
      {
        CollectsMore(blobs, nodes, app[k], block);
        blobs := blobs[app[k].digest := InfoOf(app[k], block)];
        nodes := nodes + [app[k]];
      }
      assert apps[..i + 1][..i] == apps[..i] && app[..|app|] == app;
    }
    assert apps[..|apps|] == apps;
  }

  /** What getAppBlobs makes: every blob is under its own digest. */
  predicate Keyed(m: BlobMap) {
    forall d :: d in m ==> m[d].digest == d && m[d].storeSize >= m[d].size
  }

  lemma {:induction false} CollectedIsKeyed(blobs: BlobMap, nodes: seq<Node>, block: FreeSpace.Positive)
    requires Collects(blobs, nodes, block)
    ensures Keyed(blobs)
  {
    forall d | d in blobs ensures blobs[d].digest == d && blobs[d].storeSize >= blobs[d].size {
      FreeSpace.AlignIsLeast(blobs[d].size, block);
    }
  }

  /** A blob takes as many whole blocks in the store as its size needs, and what the app adds for it at run time. */
  lemma {:induction false} InfoIs(n: Node, block: FreeSpace.Positive)
    ensures var b := InfoOf(n, block);
            && b.digest == n.digest && b.size == n.size && b.locator == n.locator && b.runtimeSize == n.runtimeSize
            && n.size <= b.storeSize < n.size + block && exists k :: b.storeSize == FreeSpace.Blocks(k, block)
  {
    FreeSpace.AlignIsLeast(n.size, block);
  }

  // Sums over finite maps.

  ghost function Sum(m: map<string, int>, s: set<string>): int
    requires s <= m.Keys
    decreases s
  {
    if s == {} then 0 else
      var k :| k in s;
      m[k] + Sum(m, s - {k})
  }

  /** The order of summation does not matter. */
  lemma {:induction false} SumPick(m: map<string, int>, s: set<string>, k: string)
    requires s <= m.Keys && k in s
    ensures Sum(m, s) == m[k] + Sum(m, s - {k})
    decreases s
  {
    var x :| x in s && Sum(m, s) == m[x] + Sum(m, s - {x});
    if x != k {
      SumPick(m, s - {x}, k);
      SumPick(m, s - {k}, x);
      assert s - {x} - {k} == s - {k} - {x};
    }
  }

  lemma {:induction false} SumAdd(m: map<string, int>, s: set<string>, k: string)
    requires s <= m.Keys && k in m && k !in s
    ensures Sum(m, s + {k}) == Sum(m, s) + m[k]
  {
    SumPick(m, s + {k}, k);
    assert s + {k} - {k} == s;
  }

  lemma {:induction false} SumBelow(m: map<string, int>, m': map<string, int>, s: set<string>, s': set<string>)
    requires s <= s' && s <= m.Keys && s' <= m'.Keys
    requires forall k :: k in s ==> m[k] <= m'[k]
    requires forall k :: k in s' ==> m'[k] >= 0
    ensures Sum(m, s) <= Sum(m', s')
    decreases s'
  {
    if s' != {} {
      var k :| k in s';
      SumPick(m', s', k);
      if k in s { SumPick(m, s, k); }
      SumBelow(m, m', s - {k}, s' - {k});
      if k !in s { assert s - {k} == s; }
    }
  }

  lemma {:induction false} SumAgrees(m: map<string, int>, m': map<string, int>, s: set<string>)
    requires s <= m.Keys && s <= m'.Keys && forall k :: k in s ==> m[k] == m'[k]
    ensures Sum(m, s) == Sum(m', s)
    decreases s
  {
    if s != {} {
      var k :| k in s;
      SumPick(m, s, k);
      SumPick(m', s, k);
      SumAgrees(m, m', s - {k});
    }
  }

  /** Splitting the digests splits the sum. */
  lemma {:induction false} SumSplits(m: map<string, int>, s: set<string>, t: set<string>)
    requires s <= m.Keys && t <= m.Keys && s !! t
    ensures Sum(m, s + t) == Sum(m, s) + Sum(m, t)
    decreases t
  {
    if t == {} {
      assert s + t == s;
    } else {
      var k :| k in t;
      SumPick(m, t, k);
      SumPick(m, s + t, k);
      assert s + t - {k} == s + (t - {k});
      SumSplits(m, s, t - {k});
    }
  }

  // The report.

  function WireSizes(m: BlobMap): map<string, int> {
    map d | d in m :: m[d].size
  }

  function DiskSizes(m: BlobMap): map<string, int> {
    map d | d in m :: m[d].storeSize + m[d].runtimeSize
  }

  function Lengths(blobs: Groups): map<string, int> {
    map l | l in blobs :: |blobs[l]|
  }

  function New(from: BlobMap, to: BlobMap): set<string> {
    to.Keys - from.Keys
  }

  ghost function WireSize(from: BlobMap, to: BlobMap): int { Sum(WireSizes(to), New(from, to)) }

  ghost function DiskSize(from: BlobMap, to: BlobMap): int { Sum(DiskSizes(to), New(from, to)) }

  /** Each of the digests is in the group of its locator, and nothing else is in any group. */
  predicate Grouped(blobs: Groups, to: BlobMap, digests: set<string>) {
    && (forall l, i :: l in blobs && 0 <= i < |blobs[l]| ==>
          && blobs[l][i].digest in digests && blobs[l][i].digest in to
          && to[blobs[l][i].digest] == blobs[l][i] && blobs[l][i].locator == l)
    && (forall l, i, j :: l in blobs && 0 <= i < j < |blobs[l]| ==> blobs[l][i].digest != blobs[l][j].digest)
    && (forall d :: d in digests ==> d in to && to[d].locator in blobs && to[d] in blobs[to[d].locator])
  }

  function Appended(blobs: Groups, b: BlobInfo): Groups {
    blobs[b.locator := (if b.locator in blobs then blobs[b.locator] else []) + [b]]
  }

  lemma {:induction false} GroupedMore(blobs: Groups, to: BlobMap, digests: set<string>, d: string)
    requires Grouped(blobs, to, digests) && d in to && to[d].digest == d && d !in digests
    ensures Grouped(Appended(blobs, to[d]), to, digests + {d})
  {
    var b := to[d];
    var blobs' := Appended(blobs, b);
    var group := blobs'[b.locator];
    assert group[|group| - 1] == b;
    forall x | x in digests + {d} ensures x in to && to[x].locator in blobs' && to[x] in blobs'[to[x].locator] {
      if x != d && to[x].locator == b.locator {
        var i :| 0 <= i < |blobs[b.locator]| && blobs[b.locator][i] == to[x];
        assert group[i] == to[x];
      }
    }
  }

  lemma {:induction false} LengthsMore(blobs: Groups, b: BlobInfo)
    ensures var blobs' := Appended(blobs, b);
            Sum(Lengths(blobs'), blobs'.Keys) == Sum(Lengths(blobs), blobs.Keys) + 1
  {
    var blobs' := Appended(blobs, b);
    var others := blobs.Keys - {b.locator};
    SumPick(Lengths(blobs'), blobs'.Keys, b.locator);
    assert blobs'.Keys - {b.locator} == others;
    SumAgrees(Lengths(blobs'), Lengths(blobs), others);
    if b.locator in blobs {
      SumPick(Lengths(blobs), blobs.Keys, b.locator);
    } else {
      assert others == blobs.Keys;
    }
  }

  /** A report that is complete for these digests. */
  ghost predicate Reports(wireSize: int, diskSize: int, blobs: Groups, to: BlobMap, digests: set<string>) {
    && digests <= to.Keys && Grouped(blobs, to, digests) && Sum(Lengths(blobs), blobs.Keys) == |digests|
    && wireSize == FreeSpace.Int64(Sum(WireSizes(to), digests))
    && diskSize == FreeSpace.Int64(Sum(DiskSizes(to), digests))
  }

  lemma {:induction false} ReportsMore(
    wireSize: int, diskSize: int, blobs: Groups, to: BlobMap, digests: set<string>, d: string)
    requires Reports(wireSize, diskSize, blobs, to, digests) && d in to && to[d].digest == d && d !in digests
    ensures var b := to[d];
            Reports(FreeSpace.Int64(wireSize + b.size),
                    FreeSpace.Int64(diskSize + FreeSpace.Int64(b.storeSize + b.runtimeSize)),
                    Appended(blobs, b), to, digests + {d})
  {
    hide FreeSpace.Int64, Sum, Appended;
    var b := to[d];
    SumAdd(WireSizes(to), digests, d);
    SumAdd(DiskSizes(to), digests, d);
    GroupedMore(blobs, to, digests, d);
    hide Grouped;
    LengthsMore(blobs, b);
    FreeSpace.WrapAbsorbs(Sum(WireSizes(to), digests), b.size);
    FreeSpace.WrapAbsorbs(Sum(DiskSizes(to), digests), FreeSpace.Int64(b.storeSize + b.runtimeSize));
    FreeSpace.WrapAbsorbs(Sum(DiskSizes(to), digests), b.storeSize + b.runtimeSize);
  }

  lemma {:induction false} ReportsNone(to: BlobMap)
    ensures Reports(0, 0, map[], to, {})
  {
  }

  lemma {:induction false} WhatIsReported(wireSize: int, diskSize: int, blobs: Groups, from: BlobMap, to: BlobMap)
    requires Reports(wireSize, diskSize, blobs, to, New(from, to))
    ensures wireSize == FreeSpace.Int64(WireSize(from, to)) && diskSize == FreeSpace.Int64(DiskSize(from, to))
    ensures Grouped(blobs, to, New(from, to)) && Sum(Lengths(blobs), blobs.Keys) == |New(from, to)|
  {
  }

  lemma {:induction false} KeyedAt(m: BlobMap, d: string)
    requires Keyed(m) && d in m
    ensures m[d].digest == d
  {
  }

  lemma {:induction false} NewLeft(from: BlobMap, to: BlobMap, left: set<string>)
    ensures left == to.Keys ==> New(from, to) - left == {}
  {
  }

  lemma {:induction false} NewLess(from: BlobMap, to: BlobMap, left: set<string>, d: string)
    requires left <= to.Keys && d in left
    ensures New(from, to) - (left - {d}) == New(from, to) - left + if d in from then {} else {d}
    ensures |left - {d}| < |left|
  {
  }

  class DiffReport {
    var wireSize: int
    var diskSize: int
    var blobs: Groups

    /** The difference loop of Diff. */
    constructor (from: BlobMap, to: BlobMap)
      requires Keyed(to)
      ensures wireSize == FreeSpace.Int64(WireSize(from, to)) && diskSize == FreeSpace.Int64(DiskSize(from, to))
      ensures Grouped(blobs, to, New(from, to))
      ensures Sum(Lengths(blobs), blobs.Keys) == |New(from, to)|
    {
      wireSize, diskSize, blobs := 0, 0, map[];
      new;
      hide Reports, Grouped, Sum, Appended, WireSizes, DiskSizes, Lengths, New, Keyed, WireSize, DiskSize;
      var left := to.Keys;
      ReportsNone(to);
      NewLeft(from, to, left);
      while left != {}
        invariant left <= to.Keys
        invariant Reports(wireSize, diskSize, blobs, to, New(from, to) - left)
        decreases |left|
      {
        var digest :| digest in left;
        NewLeft(from, to, left);
        NewLess(from, to, left, digest);
        if digest !in from {
          var b := to[digest];
          KeyedAt(to, digest);
          ReportsMore(wireSize, diskSize, blobs, to, New(from, to) - left, digest);
          wireSize := FreeSpace.Int64(wireSize + b.size);
          diskSize := FreeSpace.Int64(diskSize + FreeSpace.Int64(b.storeSize + b.runtimeSize));
          blobs := Appended(blobs, b);
        }
        left := left - {digest};
      }
      assert New(from, to) - left == New(from, to);
      WhatIsReported(wireSize, diskSize, blobs, from, to);
    }

    method BlobCount() returns (count: int)
      ensures count == Sum(Lengths(blobs), blobs.Keys)
    {
      count := 0;
      var left := blobs.Keys;
      while left != {}
        invariant left <= blobs.Keys
        invariant count == Sum(Lengths(blobs), blobs.Keys - left)
        decreases |left|
      {
        var l :| l in left;
        SumAdd(Lengths(blobs), blobs.Keys - left, l);
        assert blobs.Keys - (left - {l}) == blobs.Keys - left + {l};
        count := count + |blobs[l]|;
        left := left - {l};
      }
      assert blobs.Keys - left == blobs.Keys;
    }
  }

  /** The report of two app lists, its number of blobs, and the blobs of either list. */
  method Diff(fromApps: seq<App>, toApps: seq<App>, block: FreeSpace.Positive)
    returns (report: DiffReport, count: int, from: BlobMap, to: BlobMap)
    ensures Collects(from, NodesOf(fromApps), block) && Collects(to, NodesOf(toApps), block)
    ensures report.wireSize == FreeSpace.Int64(WireSize(from, to))
    ensures report.diskSize == FreeSpace.Int64(DiskSize(from, to))
    ensures Grouped(report.blobs, to, New(from, to)) && count == |New(from, to)|
  {
    to := AppBlobs(toApps, block);
    from := AppBlobs(fromApps, block);
    CollectedIsKeyed(to, NodesOf(toApps), block);
    report := new DiffReport(from, to);
    count := report.BlobCount();
  }

  /** What is downloaded takes at least as much on the disk; and both sizes are reported as they are if the larger one
      fits 64 bits signed, and otherwise that one is not. */
  lemma {:induction false} DiskHoldsWire(from: BlobMap, to: BlobMap)
    requires Keyed(to)
    ensures 0 <= WireSize(from, to) <= DiskSize(from, to)
    ensures DiskSize(from, to) < FreeSpace.TWO63 ==> FreeSpace.Int64(WireSize(from, to)) == WireSize(from, to)
    ensures FreeSpace.Int64(DiskSize(from, to)) == DiskSize(from, to) <==> DiskSize(from, to) < FreeSpace.TWO63
  {
    SumBelow(WireSizes(to), DiskSizes(to), New(from, to), New(from, to));
    SumBelow(WireSizes(to), WireSizes(to), {}, New(from, to));
  }

  /** One blob more adds its size to the download, and what it takes in the store and at run time to the disk. */
  lemma {:induction false} OneMoreBlob(from: BlobMap, to: BlobMap, b: BlobInfo)
    requires b.digest !in from && b.digest !in to
    ensures var to' := to[b.digest := b];
            && WireSize(from, to') == WireSize(from, to) + b.size
            && DiskSize(from, to') == DiskSize(from, to) + b.storeSize + b.runtimeSize
    ensures WireSize(from, from) == 0 && DiskSize(from, from) == 0
  {
    var to' := to[b.digest := b];
    var before := New(from, to);
    assert New(from, to') == before + {b.digest} && New(from, from) == {};
    SumAdd(WireSizes(to'), before, b.digest);
    SumAdd(DiskSizes(to'), before, b.digest);
    SumAgrees(WireSizes(to), WireSizes(to'), before);
    SumAgrees(DiskSizes(to), DiskSizes(to'), before);
  }

  /** Equal digests have equal sizes. */
  predicate SizesAgree(a: BlobMap, b: BlobMap) {
    forall d :: d in a && d in b ==> a[d].size == b[d].size
  }

  /** Going through another target downloads the blobs that it has in between without need, and those that it drops. */
  lemma {:induction false} Detour(a: BlobMap, b: BlobMap, c: BlobMap)
    requires SizesAgree(b, c)
    ensures WireSize(a, b) + WireSize(b, c)
            == WireSize(a, c) + Sum(WireSizes(b), New(a, b) - c.Keys) + Sum(WireSizes(c), New(b, c) * a.Keys)
  {
    var wb, wc := WireSizes(b), WireSizes(c);
    var kept, fresh', wasted, again := New(a, b) * c.Keys, New(b, c) - a.Keys, New(a, b) - c.Keys, New(b, c) * a.Keys;
    SumSplits(wb, kept, wasted);
    assert kept + wasted == New(a, b);
    SumSplits(wc, fresh', again);
    assert fresh' + again == New(b, c);
    SumSplits(wc, kept, fresh');
    assert kept + fresh' == New(a, c);
    SumAgrees(wb, wc, kept);
  }

  /** The triangle inequality. */
  lemma {:induction false} Triangle(a: BlobMap, b: BlobMap, c: BlobMap)
    requires SizesAgree(b, c)
    ensures WireSize(a, c) <= WireSize(a, b) + WireSize(b, c)
  {
    Detour(a, b, c);
    SumBelow(WireSizes(b), WireSizes(b), {}, New(a, b) - c.Keys);
    SumBelow(WireSizes(c), WireSizes(c), {}, New(b, c) * a.Keys);
  }
}
