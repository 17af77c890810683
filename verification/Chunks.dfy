// Chunk lists: how a file of a known size is cut into work.
// Models the arithmetic of internal/download/chunkqueue.go and engine.go.
module Chunks {

  datatype Option<+T> = None | Some(value: T)

  // One slice of work: bytes [start, end] of a region, both ends included.
  // end < 0 means "to the end of the stream" (the single whole-file chunk).
  datatype Chunk = Chunk(index: nat, start: int, end: int)

  const DEFAULT_CHUNK_SIZE := 4 * 1024 * 1024
  const INT64_MAX := 0x7FFF_FFFF_FFFF_FFFF

  function Min(a: int, b: int): int { if a <= b then a else b }
  function Max(a: int, b: int): int { if a >= b then a else b }
  function Abs(x: int): int { if x < 0 then -x else x }

  // Division that truncates toward zero.
  function Truncated(a: int, b: int): int
    requires b != 0
  {
    var q := Abs(a) / Abs(b);
    if (a < 0) == (b < 0) then q else -q
  }

  // ----- cutting a region every `step` bytes -----

  // The chunks of [start, total), `step` bytes each, the last one possibly short.
  function CutFrom(index: nat, start: int, total: int, step: int): (cs: seq<Chunk>)
    requires step >= 1
    decreases total - start
  {
    if start >= total then []
    else
      var end := Min(start + step, total) - 1;
      [Chunk(index, start, end)] + CutFrom(index + 1, end + 1, total, step)
  }

  // The chunks of a region in order, without gap or overlap, from lo up to hi.
  ghost predicate Tiles(cs: seq<Chunk>, lo: int, hi: int)
  {
    if cs == [] then lo == hi
    else cs[0].start == lo && lo <= cs[0].end < hi && Tiles(cs[1..], cs[0].end + 1, hi)
  }

  lemma {:induction false} CutTiles(index: nat, start: int, total: int, step: int)
    requires step >= 1 && start <= total
    ensures Tiles(CutFrom(index, start, total, step), start, total)
    decreases total - start
  {
    if start < total {
      var end := Min(start + step, total) - 1;
      CutTiles(index + 1, end + 1, total, step);
      assert CutFrom(index, start, total, step)[1..] == CutFrom(index + 1, end + 1, total, step);
    }
  }

  // What each chunk of a cut is: position, start and length, without recursion.
  lemma {:induction false} CutAt(index: nat, start: int, total: int, step: int, k: nat)
    requires step >= 1 && k < |CutFrom(index, start, total, step)|
    ensures start + k * step < total
    ensures CutFrom(index, start, total, step)[k]
         == Chunk(index + k, start + k * step, Min(start + k * step + step, total) - 1)
    decreases k
  {
    if k > 0 {
      var end := Min(start + step, total) - 1;
      var rest := CutFrom(index + 1, end + 1, total, step);
      assert |rest| > 0;
      assert end + 1 == start + step;
      CutAt(index + 1, end + 1, total, step, k - 1);
      assert CutFrom(index, start, total, step)[k] == rest[k - 1];
      assert (k - 1) * step + step == k * step;
    }
  }

  // A cut has exactly as many chunks as steps are needed to reach `total`.
  lemma {:induction false} CutCount(index: nat, start: int, total: int, step: int, n: nat)
    requires step >= 1
    requires start + n * step >= total
    ensures |CutFrom(index, start, total, step)| <= n
    decreases n
  {
    if n == 0 {
      assert n * step == 0;
    } else if start < total {
      assert n * step == (n - 1) * step + step;
      if start + step < total {
        CutCount(index + 1, start + step, total, step, n - 1);
      }
    }
  }

  // ----- the two queue layouts -----

  function EffectiveStep(chunkSize: int): (step: int)
    ensures step >= 1
  {
    if chunkSize < 1 then DEFAULT_CHUNK_SIZE else chunkSize
  }

  // The work list of the work-stealing queue.
  function FixedChunks(total: int, chunkSize: int): seq<Chunk>
  {
    if total < 0 then [Chunk(0, 0, -1)] else CutFrom(0, 0, total, EffectiveStep(chunkSize))
  }

  function CeilDiv(a: int, n: int): int
    requires n >= 1
  {
    (a + n - 1) / n
  }

  // The segments of the static split.
  function StaticChunks(total: int, n: int): seq<Chunk>
  {
    if total <= 0 then [] else CutFrom(0, 0, total, CeilDiv(total, Max(n, 1)))
  }

  // Effective segment count and segment size of a static split.
  function AriaSplit(total: int, split: int, minSplit: int): (r: (int, int))
    ensures r.0 >= 1
  {
    if total <= 0 || split < 1 then (1, total)
    else
      var m := Max(minSplit, 1);
      var maxN := total / (2 * m);
      var n := if maxN < split && maxN >= 1 then maxN else split;
      (n, CeilDiv(total, n))
  }

  lemma MulMonotone(n: int, x: int, y: int)
    requires n >= 0
    ensures x <= y ==> n * x <= n * y
  {
    if x <= y {
      assert n * (y - x) >= 0;
    }
  }

  lemma CeilDivCovers(a: int, n: int)
    requires n >= 1 && a >= 1
    ensures 1 <= CeilDiv(a, n) <= a
    ensures n * CeilDiv(a, n) >= a
  {
    var q := CeilDiv(a, n);
    assert n * q == (a + n - 1) - (a + n - 1) % n;
    assert n * (a + 1) > a + n - 1 by {
      assert (n - 1) * a >= 0;
    }
    MulMonotone(n, a + 1, q);
    MulMonotone(n, q, 0);
  }

  // The segment size a static queue computes for itself is the one AriaSplit returns.
  lemma AriaSegment(total: int, split: int, minSplit: int)
    requires total >= 1
    ensures var (n, seg) := AriaSplit(total, split, minSplit);
            1 <= seg <= total && seg == CeilDiv(total, n)
            && StaticChunks(total, n) == CutFrom(0, 0, total, seg)
  {
    var (n, seg) := AriaSplit(total, split, minSplit);
    CeilDivCovers(total, n);
    if split < 1 { assert CeilDiv(total, 1) == total; }
  }

  // At most n segments, and never more than the user's --split.
  lemma StaticAtMostN(total: int, n: int)
    requires n >= 1
    ensures |StaticChunks(total, n)| <= n
  {
    if total >= 1 {
      CeilDivCovers(total, n);
      CutCount(0, 0, total, CeilDiv(total, n), n);
    }
  }

  lemma SplitAtMostRequested(total: int, split: int, minSplit: int)
    requires total >= 1 && split >= 1
    ensures var (n, seg) := AriaSplit(total, split, minSplit);
            1 <= n <= split && |StaticChunks(total, n)| <= split
            && (n < split ==> total >= 2 * Max(minSplit, 1) * n)
  {
    var (n, seg) := AriaSplit(total, split, minSplit);
    StaticAtMostN(total, n);
  }

  // ----- a list of chunks whose identity is their start -----

  // Strictly increasing starts and positions as indices: what every layout guarantees.
  ghost predicate Ordered(cs: seq<Chunk>)
  {
    && (forall i :: 0 <= i < |cs| ==> cs[i].index == i && cs[i].start >= 0)
    && (forall i, j :: 0 <= i < j < |cs| ==> cs[i].start < cs[j].start)
  }

  lemma CutMember(total: int, step: int, k: nat)
    requires step >= 1 && k < |CutFrom(0, 0, total, step)|
    ensures var c := CutFrom(0, 0, total, step)[k];
            c.index == k && c.start == k * step && 0 <= c.start <= c.end < total
                && c.end == Min(c.start + step, total) - 1
  {
    CutAt(0, 0, total, step, k);
    MulMonotone(step, 0, k);
  }

  lemma ScaledLess(i: nat, k: nat, step: int)
    requires step >= 1 && i < k
    ensures i * step < k * step
  {
    MulMonotone(step, i + 1, k);
    assert step * (i + 1) == i * step + step && step * k == k * step;
  }

  lemma CutIncreases(total: int, step: int, i: nat, k: nat)
    requires step >= 1 && i < k < |CutFrom(0, 0, total, step)|
    ensures CutFrom(0, 0, total, step)[i].start < CutFrom(0, 0, total, step)[k].start
  {
    CutMember(total, step, i);
    CutMember(total, step, k);
    ScaledLess(i, k, step);
  }

  lemma CutOrdered(total: int, step: int)
    requires step >= 1
    ensures Ordered(CutFrom(0, 0, total, step))
    ensures forall c :: c in CutFrom(0, 0, total, step) ==>
              0 <= c.start <= c.end < total && c.end == Min(c.start + step, total) - 1
  {
    var cs := CutFrom(0, 0, total, step);
    forall k | 0 <= k < |cs|
      ensures cs[k].index == k && 0 <= cs[k].start <= cs[k].end < total
              && cs[k].end == Min(cs[k].start + step, total) - 1
    {
      CutMember(total, step, k);
    }
    forall i, k | 0 <= i < k < |cs|
      ensures cs[i].start < cs[k].start
    {
      CutIncreases(total, step, i, k);
    }
  }

  // Every byte of the region is in exactly one chunk of a tiling.
  lemma {:induction false} TilesCover(cs: seq<Chunk>, lo: int, hi: int, p: int)
    requires Tiles(cs, lo, hi) && lo <= p < hi
    ensures exists i :: 0 <= i < |cs| && cs[i].start <= p <= cs[i].end
  {
    if cs[0].end < p {
      TilesCover(cs[1..], cs[0].end + 1, hi, p);
      var i :| 0 <= i < |cs[1..]| && cs[1..][i].start <= p <= cs[1..][i].end;
      assert cs[i + 1].start <= p <= cs[i + 1].end;
    } else {
      assert cs[0].start <= p <= cs[0].end;
    }
  }

  lemma {:induction false} TilesDisjoint(cs: seq<Chunk>, lo: int, hi: int, i: int, j: int)
    requires Tiles(cs, lo, hi) && 0 <= i < j < |cs|
    ensures lo <= cs[i].start <= cs[i].end < cs[j].start <= cs[j].end < hi
  {
    if i > 0 {
      TilesDisjoint(cs[1..], cs[0].end + 1, hi, i - 1, j - 1);
    } else {
      TilesWithin(cs[1..], cs[0].end + 1, hi, j - 1);
    }
  }

  lemma {:induction false} TilesWithin(cs: seq<Chunk>, lo: int, hi: int, j: int)
    requires Tiles(cs, lo, hi) && 0 <= j < |cs|
    ensures lo <= cs[j].start <= cs[j].end < hi
  {
    if j > 0 {
      TilesWithin(cs[1..], cs[0].end + 1, hi, j - 1);
    } else {
      assert lo <= cs[0].end < hi;
    }
  }

  // ----- byte totals -----

  // Bytes a chunk covers given the file size.
  function ChunkBytes(c: Chunk, total: int): int
  {
    if c.end < 0 || total < 0 then (if total > 0 then total else 0) else c.end - c.start + 1
  }

  // Byte total of the chunks whose start is in `starts`.
  function BytesIn(cs: seq<Chunk>, starts: set<int>, total: int): int
  {
    if cs == [] then 0
    else (if cs[0].start in starts then ChunkBytes(cs[0], total) else 0) + BytesIn(cs[1..], starts, total)
  }

  function Starts(cs: seq<Chunk>): set<int>
  {
    set c | c in cs :: c.start
  }

  // The chunks not yet on disk, in their original order.
  function Missing(cs: seq<Chunk>, done: set<int>): seq<Chunk>
  {
    if cs == [] then []
    else if cs[0].start in done then Missing(cs[1..], done)
    else [cs[0]] + Missing(cs[1..], done)
  }

  lemma {:induction false} MissingMembers(cs: seq<Chunk>, done: set<int>)
    ensures forall c :: c in Missing(cs, done) <==> c in cs && c.start !in done
    ensures |Missing(cs, done)| <= |cs|
  {
    if cs != [] {
      MissingMembers(cs[1..], done);
      assert cs == [cs[0]] + cs[1..];
    }
  }

  lemma Inhabited(s: set<int>)
    ensures s != {} ==> exists x :: x in s
  {
    assert (forall x :: x !in s) ==> s == {};
  }
}
