// The storage check before a download: pkg/state/fetch.go, checkFreeSpace.

module FreeSpace {
  type Positive = n: int | 0 < n witness 1

  /** A blob of an update as far as storage goes; `size` is the size in its descriptor. */
  datatype Blob = Blob(size: int, storeSize: int, fetched: int, runtimeSize: int)

  const TWO64 := 0x1_0000_0000_0000_0000
  const TWO63 := 0x8000_0000_0000_0000

  /** compose.AlignToBlockSize: up to the next multiple of the block size. */
  function Align(n: int, block: Positive): int {
    (n + block - 1) / block * block
  }

  function Int64(x: int): int {
    (x + TWO63) % TWO64 - TWO63
  }

  function Uint64(x: int): (r: nat)
    ensures r < TWO64
  {
    x % TWO64
  }

  /** What one blob still needs, in unbounded arithmetic. */
  function Need(b: Blob, block: Positive): int {
    b.storeSize - Align(b.fetched, block) + b.runtimeSize
  }

  function TotalNeed(blobs: seq<Blob>, block: Positive): int {
    if blobs == [] then 0
    else TotalNeed(blobs[..|blobs| - 1], block) + Need(blobs[|blobs| - 1], block)
  }

  function TotalRuntime(blobs: seq<Blob>): int {
    if blobs == [] then 0 else TotalRuntime(blobs[..|blobs| - 1]) + blobs[|blobs| - 1].runtimeSize
  }

  lemma {:induction false} WrapAbsorbs(x: int, y: int)
    ensures Int64(Int64(x) + y) == Int64(x + y)
    ensures Int64(x + Int64(y)) == Int64(x + y)
    ensures Uint64(Int64(x)) == Uint64(x)
  {
  }

  /** The loop of checkFreeSpace, with the wrap-around of its signed 64-bit sum. */
  method RequiredBytes(blobs: seq<Blob>, block: Positive) returns (required: nat)
    ensures required == Uint64(TotalNeed(blobs, block))
  {
    var sum := 0;
    for i := 0 to |blobs|
      invariant sum == Int64(TotalNeed(blobs[..i], block))
    {
      assert blobs[..i + 1][..i] == blobs[..i];
      var b := blobs[i];
      WrapAbsorbs(TotalNeed(blobs[..i], block), Int64(b.storeSize - Align(b.fetched, block)));
      WrapAbsorbs(TotalNeed(blobs[..i], block), b.storeSize - Align(b.fetched, block));
      sum := Int64(sum + Int64(b.storeSize - Align(b.fetched, block)));
      WrapAbsorbs(TotalNeed(blobs[..i], block) + b.storeSize - Align(b.fetched, block), b.runtimeSize);
      sum := Int64(sum + b.runtimeSize);
    }
    assert blobs[..|blobs|] == blobs;
    WrapAbsorbs(TotalNeed(blobs, block), 0);
    required := Uint64(sum);
  }

  /** A blob as the runner records it: rounded store size, and no more fetched than there is. */
  predicate Recorded(b: Blob, block: Positive) {
    b.storeSize == Align(b.size, block) && 0 <= b.fetched <= b.size && 0 <= b.runtimeSize
  }

  predicate AllRecorded(blobs: seq<Blob>, block: Positive) {
    forall i :: 0 <= i < |blobs| ==> Recorded(blobs[i], block)
  }

  /** The same blobs later in the same download. */
  predicate Fetching(blobs: seq<Blob>, later: seq<Blob>) {
    && |later| == |blobs|
    && forall i :: 0 <= i < |blobs| ==>
         later[i] == blobs[i].(fetched := later[i].fetched) && blobs[i].fetched <= later[i].fetched
  }

  function Blocks(k: int, block: Positive): int {
    k * block
  }

  /** The least number of whole blocks that holds n. */
  lemma {:induction false} AlignIsLeast(n: int, block: Positive)
    ensures n <= Align(n, block) < n + block
    ensures exists k :: Align(n, block) == Blocks(k, block)
    ensures forall k :: Blocks(k, block) >= n ==> Blocks(k, block) >= Align(n, block)
  {
    var q := (n + block - 1) / block;
    assert n + block - 1 == q * block + (n + block - 1) % block;
    assert Align(n, block) == Blocks(q, block);
    forall k | Blocks(k, block) >= n ensures Blocks(k, block) >= Align(n, block) {
      if k < q { NextMultiple(q, k, block); } else { AtLeast(k, q, block); }
    }
  }

  lemma {:induction false} AtLeast(a: int, b: int, d: Positive)
    requires a >= b
    ensures a * d >= b * d
  {
    assert (a - b) * d >= 0;
    assert (a - b) * d == a * d - b * d;
  }

  lemma {:induction false} NextMultiple(a: int, b: int, d: Positive)
    requires b < a
    ensures b * d + d <= a * d
  {
    assert (a - b - 1) * d >= 0;
    assert (a - b - 1) * d == a * d - b * d - d;
  }

  lemma {:induction false} DivIsMonotone(n: int, m: int, d: Positive)
    requires n <= m
    ensures n / d <= m / d
  {
    if m / d < n / d { NextMultiple(n / d, m / d, d); }
  }

  lemma {:induction false} AlignIsMonotone(n: int, m: int, block: Positive)
    requires n <= m
    ensures Align(n, block) <= Align(m, block)
  {
    var a, b := (n + block - 1) / block, (m + block - 1) / block;
    DivIsMonotone(n + block - 1, m + block - 1, block);
    assert (b - a) * block >= 0;
    assert (b - a) * block == b * block - a * block;
  }

  /** Never negative: at least the runtime sizes remain; and exactly those once all is fetched. */
  lemma {:induction false} NeverNegative(blobs: seq<Blob>, block: Positive)
    requires AllRecorded(blobs, block)
    ensures TotalNeed(blobs, block) >= TotalRuntime(blobs) >= 0
    ensures (forall i :: 0 <= i < |blobs| ==> blobs[i].fetched == blobs[i].size)
            ==> TotalNeed(blobs, block) == TotalRuntime(blobs)
  {
    if blobs != [] {
      var rest, b := blobs[..|blobs| - 1], blobs[|blobs| - 1];
      NeverNegative(rest, block);
      AlignIsMonotone(b.fetched, b.size, block);
    }
  }

  /** Fetching more never raises the requirement. */
  lemma {:induction false} NeverGrows(blobs: seq<Blob>, later: seq<Blob>, block: Positive)
    requires Fetching(blobs, later)
    ensures TotalNeed(later, block) <= TotalNeed(blobs, block)
  {
    if blobs != [] {
      NeverGrows(blobs[..|blobs| - 1], later[..|later| - 1], block);
      AlignIsMonotone(blobs[|blobs| - 1].fetched, later[|later| - 1].fetched, block);
    }
  }

  /** The unsigned conversion, wrap-around included, is exact precisely on totals that fit 64 bits unsigned. */
  lemma {:induction false} ConversionExact(blobs: seq<Blob>, block: Positive)
    ensures Uint64(TotalNeed(blobs, block)) == TotalNeed(blobs, block) <==> 0 <= TotalNeed(blobs, block) < TWO64
  {
  }

  /** On recorded blobs of a size any disk can hold, the comparison with the available space is the intended one. */
  lemma {:induction false} RequirementIsTrue(blobs: seq<Blob>, block: Positive, available: nat)
    requires AllRecorded(blobs, block)
    ensures TotalNeed(blobs, block) < TWO64 ==>
              (Uint64(TotalNeed(blobs, block)) > available <==> TotalNeed(blobs, block) > available)
    ensures TotalNeed(blobs, block) >= TWO64 ==> Uint64(TotalNeed(blobs, block)) != TotalNeed(blobs, block)
  {
    NeverNegative(blobs, block);
    ConversionExact(blobs, block);
  }
}
