// The layout arithmetic in the program's own integers: 64 bits, wrapping, division truncating
// (internal/download/engine.go and chunkqueue.go).
module Int64 {
  import opened Chunks
  import opened Layout

  const INT64_MIN := -0x8000_0000_0000_0000

  predicate Fits(x: int)
  {
    INT64_MIN <= x <= INT64_MAX
  }

  function Wrap(x: int): (w: int)
    ensures Fits(w) && (w == x <==> Fits(x))
  {
    (x - INT64_MIN) % 0x1_0000_0000_0000_0000 + INT64_MIN
  }

  lemma WrapOnce(x: int)
    requires INT64_MAX < x <= 2 * INT64_MAX
    ensures Wrap(x) == x - 0x1_0000_0000_0000_0000
  {
  }

  function Quot(a: int, b: int): int
    requires b != 0
  {
    Wrap(Truncated(a, b))
  }

  function Aria64(total: int, split: int, minSplit: int): (int, int)
    requires Fits(minSplit)
  {
    if total <= 0 || split < 1 then (1, total)
    else
      var m := Max(minSplit, 1);
      var twice := Wrap(2 * m);
      assert m > INT64_MAX / 2 ==> twice == 2 * m - 0x1_0000_0000_0000_0000 by {
        if m > INT64_MAX / 2 { WrapOnce(2 * m); }
      }
      var maxN := Quot(total, twice);
      var n := if maxN < split && maxN >= 1 then maxN else split;
      (n, Quot(Wrap(Wrap(total + n) - 1), n))
  }

  // ----- the building loop, turn by turn -----

  datatype Loop = Loop(chunks: seq<Chunk>, start: int)

  function Turn(l: Loop, total: int, step: int): Loop
  {
    var reach := Wrap(Wrap(l.start + step) - 1);
    var end := if reach >= total then Wrap(total - 1) else reach;
    Loop(l.chunks + [Chunk(|l.chunks|, l.start, end)], Wrap(end + 1))
  }

  // The loop after k turns, or where it ended before.
  function Turns(k: nat, total: int, step: int): Loop
  {
    if k == 0 then Loop([], 0)
    else
      var l := Turns(k - 1, total, step);
      if l.start < total then Turn(l, total, step) else l
  }

  ghost predicate Ends(total: int, step: int, cs: seq<Chunk>)
  {
    exists k: nat :: Turns(k, total, step).start >= total && Turns(k, total, step).chunks == cs
  }

  ghost predicate EndsTiled(total: int, step: int)
  {
    exists k: nat :: Turns(k, total, step).start >= total && Tiles(Turns(k, total, step).chunks, 0, total)
  }

  // The start of the last chunk.
  function LastStart(total: int, step: int): int
    requires step >= 1
  {
    (total - 1) / step * step
  }

  lemma WrapPlus(a: int, b: int)
    ensures Wrap(Wrap(a) + b) == Wrap(a + b)
  {
    var p := (a - INT64_MIN) / 0x1_0000_0000_0000_0000;
    assert Wrap(a) == a - p * 0x1_0000_0000_0000_0000;
    Shifted(a + b, p);
  }

  lemma Shifted(x: int, p: int)
    ensures Wrap(x - p * 0x1_0000_0000_0000_0000) == Wrap(x)
  {
  }

  // A full turn: the reach is still inside the file.
  lemma FullTurn(l: Loop, total: int, step: int)
    requires 0 <= l.start < l.start + step < total <= INT64_MAX
    ensures Turn(l, total, step) == Loop(l.chunks + [Chunk(|l.chunks|, l.start, l.start + step - 1)], l.start + step)
  {
  }

  // The turn that reaches the end, if the reach does not wrap.
  lemma LastTurn(l: Loop, total: int, step: int)
    requires 0 <= l.start < total <= l.start + step && l.start + step - 1 <= INT64_MAX && total <= INT64_MAX
    ensures Turn(l, total, step) == Loop(l.chunks + [Chunk(|l.chunks|, l.start, total - 1)], total)
  {
    WrapPlus(l.start + step, -1);
  }

  // The turn that wraps: the chunk ends before the file begins.
  lemma WrappedTurn(l: Loop, total: int, step: int)
    requires 0 <= l.start < total <= INT64_MAX && 1 <= step <= INT64_MAX && l.start + step - 1 > INT64_MAX
    ensures Turn(l, total, step).chunks[..|l.chunks|] == l.chunks
    ensures |Turn(l, total, step).chunks| == |l.chunks| + 1 && Turn(l, total, step).chunks[|l.chunks|].end < 0
  {
    WrapPlus(l.start + step, -1);
    WrapOnce(l.start + step - 1);
  }

  lemma CutUnrolled(index: nat, start: int, total: int, step: int)
    requires 1 <= step && start + step < total
    ensures CutFrom(index, start, total, step)
            == [Chunk(index, start, start + step - 1)] + CutFrom(index + 1, start + step, total, step)
  {
  }

  // k full turns are in the list, and the cut of the rest completes it.
  ghost predicate Cut(l: Loop, k: nat, at: int, total: int, step: int)
    requires 1 <= step
  {
    l.start == at && |l.chunks| == k && l.chunks + CutFrom(k, at, total, step) == CutFrom(0, 0, total, step)
  }

  lemma Moved(a: seq<Chunk>, c: Chunk, rest: seq<Chunk>)
    ensures a + ([c] + rest) == (a + [c]) + rest
  {
  }

  lemma CutTurn(l: Loop, k: nat, at: int, total: int, step: int)
    requires 1 <= step && 0 <= at < at + step < total <= INT64_MAX && Cut(l, k, at, total, step)
    ensures Cut(Turn(l, total, step), k + 1, at + step, total, step)
  {
    FullTurn(l, total, step);
    CutUnrolled(k, at, total, step);
    Moved(l.chunks, Chunk(k, at, at + step - 1), CutFrom(k + 1, at + step, total, step));
  }

  lemma OneBack(k: nat, step: int)
    requires k >= 1 && step >= 1
    ensures 0 <= (k - 1) * step == k * step - step
  {
    MulMonotone(step, 0, k - 1);
  }

  lemma {:induction false} FullTurns(k: nat, at: int, total: int, step: int)
    requires 1 <= step && at == k * step < total <= INT64_MAX
    ensures Cut(Turns(k, total, step), k, at, total, step)
  {
    if k == 0 {
      NoTurns(total, step);
    } else {
      OneBack(k, step);
      FullTurns(k - 1, at - step, total, step);
      CutTurn(Turns(k - 1, total, step), k - 1, at - step, total, step);
    }
  }

  lemma NoTurns(total: int, step: int)
    requires 1 <= step
    ensures Cut(Turns(0, total, step), 0, 0, total, step)
  {
    assert [] + CutFrom(0, 0, total, step) == CutFrom(0, 0, total, step);
  }

  lemma LastIndex(total: int, step: int) returns (q: nat)
    requires 1 <= step && 0 < total
    ensures q * step == LastStart(total, step) && q * step < total <= q * step + step
  {
    q := (total - 1) / step;
    assert total - 1 == q * step + (total - 1) % step;
  }

  // ----- no wrap: the loop is the cut -----

  lemma CutBuilt(total: int, step: int)
    requires 1 <= step && 0 < total <= INT64_MAX && LastStart(total, step) + step - 1 <= INT64_MAX
    ensures Ends(total, step, CutFrom(0, 0, total, step))
  {
    var q := LastIndex(total, step);
    FullTurns(q, q * step, total, step);
    var l := Turns(q, total, step);
    MulMonotone(step, 0, q);
    LastTurn(l, total, step);
    assert CutFrom(q + 1, total, total, step) == [];
    assert CutFrom(q, q * step, total, step) == [Chunk(q, q * step, total - 1)];
    assert Turns(q + 1, total, step) == Turn(l, total, step);
  }

  // ----- a chunk that ends before the file begins stays in the list -----

  lemma {:induction false} Keeps(i: nat, k: nat, total: int, step: int)
    requires i <= k
    ensures Turns(i, total, step).chunks <= Turns(k, total, step).chunks
    decreases k
  {
    if i < k {
      Keeps(i, k - 1, total, step);
    }
  }

  lemma NeverTiled(i: nat, j: nat, total: int, step: int)
    requires j < |Turns(i, total, step).chunks| && Turns(i, total, step).chunks[j].end < 0
    requires forall k: nat :: k < i ==> Turns(k, total, step).start < total
    ensures !EndsTiled(total, step)
  {
    forall k: nat | Turns(k, total, step).start >= total
      ensures !Tiles(Turns(k, total, step).chunks, 0, total)
    {
      Keeps(i, k, total, step);
      var cs := Turns(k, total, step).chunks;
      assert cs[j].end < 0;
      if Tiles(cs, 0, total) {
        TilesWithin(cs, 0, total, j);
      }
    }
  }

  lemma WrappedNeverTiles(total: int, step: int)
    requires 1 <= step <= INT64_MAX && 0 < total <= INT64_MAX && LastStart(total, step) + step - 1 > INT64_MAX
    ensures !EndsTiled(total, step)
  {
    var q := LastIndex(total, step);
    forall k: nat | k < q + 1
      ensures Turns(k, total, step).start < total
    {
      MulMonotone(step, k, q);
      assert step * k == k * step && step * q == q * step;
      FullTurns(k, k * step, total, step);
    }
    FullTurns(q, q * step, total, step);
    MulMonotone(step, 0, q);
    WrappedTurn(Turns(q, total, step), total, step);
    assert Turns(q + 1, total, step) == Turn(Turns(q, total, step), total, step);
    NeverTiled(q + 1, q, total, step);
  }

  // The loop ends with a tiling exactly when its last reach fits, and then it is the cut.
  lemma LoopExactly(total: int, step: int)
    requires 1 <= step <= INT64_MAX && 0 < total <= INT64_MAX
    ensures EndsTiled(total, step) <==> LastStart(total, step) + step - 1 <= INT64_MAX
    ensures EndsTiled(total, step) ==> Ends(total, step, CutFrom(0, 0, total, step))
  {
    if LastStart(total, step) + step - 1 <= INT64_MAX {
      CutBuilt(total, step);
      var k: nat :| Turns(k, total, step).start >= total
                    && Turns(k, total, step).chunks == CutFrom(0, 0, total, step);
      CutTiles(0, 0, total, step);
      assert Tiles(Turns(k, total, step).chunks, 0, total);
    } else {
      WrappedNeverTiles(total, step);
    }
  }

  // ----- the work-stealing queue -----

  // The last reach fits.
  predicate FixedFits(total: int, chunkSize: int)
  {
    total <= 0 || LastStart(total, EffectiveStep(chunkSize)) + EffectiveStep(chunkSize) - 1 <= INT64_MAX
  }

  ghost predicate FixedBuilds(total: int, chunkSize: int)
  {
    total < 0 || EndsTiled(total, EffectiveStep(chunkSize))
  }

  lemma EmptyTiled(total: int, step: int)
    requires total == 0
    ensures EndsTiled(total, step) && Ends(total, step, [])
  {
    assert Turns(0, total, step) == Loop([], 0);
  }

  lemma FixedExactly(total: int, chunkSize: int)
    requires total <= INT64_MAX && Fits(chunkSize)
    ensures FixedBuilds(total, chunkSize) <==> FixedFits(total, chunkSize)
    ensures FixedBuilds(total, chunkSize) && total >= 0
            ==> Ends(total, EffectiveStep(chunkSize), FixedChunks(total, chunkSize))
  {
    if total > 0 {
      LoopExactly(total, EffectiveStep(chunkSize));
    } else if total == 0 {
      EmptyTiled(total, EffectiveStep(chunkSize));
    }
  }

  // Files of up to 2^62 bytes are safe with every chunk size.
  lemma SmallFilesFit(total: int, chunkSize: int)
    requires total <= 0x4000_0000_0000_0000 && Fits(chunkSize)
    ensures FixedFits(total, chunkSize)
  {
    if total > 0 {
      var step := EffectiveStep(chunkSize);
      var q := LastIndex(total, step);
      if q == 0 {
        assert q * step == 0;
      } else {
        MulMonotone(step, 1, q);
      }
    }
  }

  // ----- the static split -----

  function Seg64(total: int, n: int): int
  {
    Quot(Wrap(Wrap(total + Max(n, 1)) - 1), Max(n, 1))
  }

  predicate StaticFits(total: int, n: int)
  {
    total <= 0 || total + Max(n, 1) - 1 <= INT64_MAX
  }

  ghost predicate StaticBuilds(total: int, n: int)
  {
    total <= 0 || EndsTiled(total, Seg64(total, n))
  }

  lemma SegRight(total: int, n: int)
    requires 0 < total && 1 <= n && total + n - 1 <= INT64_MAX
    ensures Seg64(total, n) == CeilDiv(total, n)
  {
    WrapPlus(total + n, -1);
    CeilDivCovers(total, n);
  }

  // A wrapped sum is below zero, and so is no segment size.
  lemma SegWrapped(total: int, n: int)
    requires 0 < total <= INT64_MAX && 1 <= n <= INT64_MAX && total + n - 1 > INT64_MAX
    ensures INT64_MIN / 2 <= Seg64(total, n) <= 0
  {
    WrapPlus(total + n, -1);
    WrapOnce(total + n - 1);
    var a := 0x1_0000_0000_0000_0000 - (total + n - 1);
    assert n >= 2 && 0 < a <= INT64_MAX + 1;
    QuotBounds(a, n);
  }

  lemma QuotBounds(a: int, n: int)
    requires n >= 2 && a >= 0
    ensures 0 <= a / n <= a / 2
  {
    MulMonotone(a / n, 2, n);
    assert a == n * (a / n) + a % n;
  }

  // The reach never wraps when the sum does not.
  lemma StaticReachFits(total: int, n: int)
    requires 0 < total && 1 <= n && total + n - 1 <= INT64_MAX
    ensures var seg := CeilDiv(total, n); 1 <= seg && LastStart(total, seg) + seg - 1 <= INT64_MAX
  {
    var seg := CeilDiv(total, n);
    CeilDivCovers(total, n);
    var q := LastIndex(total, seg);
    if q + 1 > n {
      MulMonotone(seg, n, q);
    }
    MulMonotone(seg, q + 1, n);
    assert seg * (q + 1) == q * seg + seg;
    assert n * seg <= total + n - 1;
  }

  lemma BackwardsNeverTiles(total: int, step: int)
    requires 0 < total <= INT64_MAX && INT64_MIN / 2 <= step <= 0
    ensures !EndsTiled(total, step)
  {
    assert Turns(0, total, step) == Loop([], 0);
    var l := Turn(Turns(0, total, step), total, step);
    assert Turns(1, total, step) == l;
    assert l.chunks == [Chunk(0, 0, step - 1)];
    NeverTiled(1, 0, total, step);
  }

  // The loop of the static split ends with a tiling exactly when total + n - 1 fits.
  lemma StaticExactly(total: int, n: int)
    requires total <= INT64_MAX && Fits(n)
    ensures StaticBuilds(total, n) <==> StaticFits(total, n)
    ensures StaticBuilds(total, n) && total > 0 ==> Ends(total, Seg64(total, n), StaticChunks(total, n))
  {
    if total > 0 {
      var parts := Max(n, 1);
      if total + parts - 1 <= INT64_MAX {
        SegRight(total, parts);
        CeilDivCovers(total, parts);
        StaticReachFits(total, parts);
        LoopExactly(total, CeilDiv(total, parts));
      } else {
        SegWrapped(total, parts);
        BackwardsNeverTiles(total, Seg64(total, n));
      }
    }
  }

  // ----- the split itself -----

  lemma NoLarger(a: int, b: int)
    requires 0 <= a && 1 <= b
    ensures 0 <= a / b <= a
  {
    var q := a / b;
    MulMonotone(q, 1, b);
    assert a == b * q + a % b;
  }

  lemma QuotSmall(a: int, b: int)
    requires 0 <= a <= INT64_MAX && b != 0
    ensures Quot(a, b) == if b > 0 then a / b else -(a / Abs(b))
    ensures b < 0 ==> Quot(a, b) <= 0
  {
    NoLarger(a, Abs(b));
  }

  lemma NothingLeft(a: int, b: int)
    requires 0 <= a < b
    ensures a / b == 0
  {
  }

  // A wrapped 2 * minSplit divides to nothing, as the true one does.
  lemma DoubledWrap(total: int, m: int)
    requires 0 < total <= INT64_MAX && 1 <= m <= INT64_MAX
    ensures Wrap(2 * m) != 0
    ensures 2 * m <= INT64_MAX ==> Quot(total, Wrap(2 * m)) == total / (2 * m)
    ensures 2 * m > INT64_MAX ==> Quot(total, Wrap(2 * m)) <= 0 && total / (2 * m) == 0
  {
    if 2 * m > INT64_MAX {
      WrapOnce(2 * m);
      NothingLeft(total, 2 * m);
    }
    QuotSmall(total, Wrap(2 * m));
  }

  lemma CountAgrees(total: int, split: int, minSplit: int)
    requires total <= INT64_MAX && Fits(split) && Fits(minSplit)
    ensures Aria64(total, split, minSplit).0 == AriaSplit(total, split, minSplit).0
  {
    if total > 0 && split >= 1 {
      DoubledWrap(total, Max(minSplit, 1));
    }
  }

  // The count is always right; the segment size is right exactly when the rounding sum fits.
  // That 2 * minSplit may wrap does no harm.
  lemma AriaExactly(total: int, split: int, minSplit: int)
    requires total <= INT64_MAX && Fits(split) && Fits(minSplit)
    ensures Aria64(total, split, minSplit).0 == AriaSplit(total, split, minSplit).0
    ensures Aria64(total, split, minSplit) == AriaSplit(total, split, minSplit)
            <==> StaticFits(total, AriaSplit(total, split, minSplit).0)
  {
    CountAgrees(total, split, minSplit);
    var n := AriaSplit(total, split, minSplit).0;
    if total > 0 && split >= 1 {
      assert n <= INT64_MAX;
      CeilDivCovers(total, n);
      if total + n - 1 <= INT64_MAX {
        SegRight(total, n);
      } else {
        SegWrapped(total, n);
      }
    }
  }

  // ----- the whole plan -----

  ghost predicate PlanBuilds(o: Options, p: Probe)
    requires Fits(o.minSplit)
  {
    var qs := QueueSize(p);
    if SplitsInTwo(o, p) then
      var mid := Max(qs / 2, 1);
      FixedBuilds(mid, o.chunkSize) && StaticBuilds(qs - mid, Aria64(qs - mid, o.split, o.minSplit).0)
    else if o.profile == Aria2c && qs > 0 then StaticBuilds(qs, Aria64(qs, o.split, o.minSplit).0)
    else FixedBuilds(qs, o.chunkSize)
  }

  predicate PlanFits(o: Options, p: Probe)
  {
    var qs := QueueSize(p);
    if SplitsInTwo(o, p) then
      var mid := Max(qs / 2, 1);
      FixedFits(mid, o.chunkSize) && StaticFits(qs - mid, AriaSplit(qs - mid, o.split, o.minSplit).0)
    else if o.profile == Aria2c && qs > 0 then StaticFits(qs, AriaSplit(qs, o.split, o.minSplit).0)
    else FixedFits(qs, o.chunkSize)
  }

  lemma StaticPart(total: int, o: Options)
    requires total <= INT64_MAX && Fits(o.split) && Fits(o.minSplit)
    ensures StaticBuilds(total, Aria64(total, o.split, o.minSplit).0)
            <==> StaticFits(total, AriaSplit(total, o.split, o.minSplit).0)
  {
    CountAgrees(total, o.split, o.minSplit);
    CountFits(total, o.split, o.minSplit);
    StaticExactly(total, AriaSplit(total, o.split, o.minSplit).0);
  }

  lemma FixedPart(total: int, chunkSize: int)
    requires total <= INT64_MAX && Fits(chunkSize)
    ensures FixedBuilds(total, chunkSize) <==> FixedFits(total, chunkSize)
  {
    FixedExactly(total, chunkSize);
  }

  // Every queue of a run is built, as a tiling of its region, exactly when the guard holds.
  lemma PlanExactly(o: Options, p: Probe)
    requires p.totalSize <= INT64_MAX && Fits(o.chunkSize) && Fits(o.split) && Fits(o.minSplit)
    ensures PlanBuilds(o, p) <==> PlanFits(o, p)
  {
    var qs := QueueSize(p);
    if SplitsInTwo(o, p) {
      var mid := Max(qs / 2, 1);
      FixedPart(mid, o.chunkSize);
      StaticPart(qs - mid, o);
    } else if o.profile == Aria2c && qs > 0 {
      StaticPart(qs, o);
    } else {
      FixedPart(qs, o.chunkSize);
    }
  }

  lemma CountFits(total: int, split: int, minSplit: int)
    requires Fits(split)
    ensures 1 <= AriaSplit(total, split, minSplit).0 <= INT64_MAX
  {
  }

  // ----- the input that fails -----

  const HUGE_SPLIT := INT64_MAX
  const MIN_SPLIT := 20 * 1024 * 1024

  lemma BackTurn(l: Loop)
    requires INT64_MIN + 2 <= l.start <= 0
    ensures Turn(l, 2, -1).start == l.start - 1
  {
  }

  lemma {:induction false} RunsBack(k: nat)
    requires k <= INT64_MAX
    ensures Turns(k, 2, -1).start + k == 0
  {
    if k > 0 {
      RunsBack(k - 1);
      BackTurn(Turns(k - 1, 2, -1));
    }
  }

  // Two bytes, the largest split and the default least segment: the segment size is -1, and
  // after k turns the loop stands at -k, up to k == 2^63 - 1.
  lemma HugeSplit(k: nat)
    requires k <= INT64_MAX
    ensures Aria64(2, HUGE_SPLIT, MIN_SPLIT) == (HUGE_SPLIT, -1)
    ensures Seg64(2, Aria64(2, HUGE_SPLIT, MIN_SPLIT).0) == -1
    ensures Turns(k, 2, -1).start + k == 0
    ensures !StaticBuilds(2, HUGE_SPLIT)
  {
    assert Quot(2, Wrap(2 * MIN_SPLIT)) == 0;
    assert Wrap(Wrap(2 + HUGE_SPLIT) - 1) == INT64_MIN;
    assert INT64_MIN / HUGE_SPLIT == -2;
    assert Seg64(2, HUGE_SPLIT) == -1;
    RunsBack(k);
    StaticExactly(2, HUGE_SPLIT);
  }
}
