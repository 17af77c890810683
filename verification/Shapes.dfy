// The exact shape of what Start builds: chunk lists, segment counts, the two halves of a file,
// the workers of each region, and the order in which a queue hands out work (task_start.go,
// chunkqueue.go and engine.go of internal/download).
module Shapes {
  import opened Chunks
  import opened Layout
  import opened Workers
  import opened World
  import W = WorkQueue

  // ----- chunk lists -----

  // cs cuts [0, total) every `step` bytes, the last piece possibly short.
  ghost predicate EvenCut(cs: seq<Chunk>, total: int, step: int)
  {
    && (forall k :: 0 <= k < |cs| ==> cs[k] == Chunk(k, k * step, Min(k * step + step, total) - 1))
    && total <= |cs| * step && (cs != [] ==> (|cs| - 1) * step < total)
  }

  lemma CutIsEven(total: int, step: int)
    requires step >= 1 && total >= 0
    ensures EvenCut(CutFrom(0, 0, total, step), total, step)
  {
    var cs := CutFrom(0, 0, total, step);
    forall k | 0 <= k < |cs|
      ensures cs[k] == Chunk(k, k * step, Min(k * step + step, total) - 1)
    {
      CutAt(0, 0, total, step, k);
    }
    if cs != [] { CutAt(0, 0, total, step, |cs| - 1); }
    CutReaches(0, 0, total, step);
  }

  lemma {:induction false} CutReaches(index: nat, start: int, total: int, step: int)
    requires step >= 1
    ensures start + |CutFrom(index, start, total, step)| * step >= total
    decreases total - start
  {
    var cs := CutFrom(index, start, total, step);
    if start >= total {
      assert |cs| * step == 0;
    } else {
      CutReaches(index + 1, Min(start + step, total), total, step);
      var rest := CutFrom(index + 1, Min(start + step, total), total, step);
      assert |cs| == |rest| + 1;
      Unroll(|rest|, step);
    }
  }

  lemma Unroll(k: nat, step: int)
    ensures (k + 1) * step == k * step + step
  {
  }

  // The work-stealing queue cuts every chunkSize bytes, or every 4 MiB if none is given; a file
  // of unknown size is one chunk to its end.
  lemma FixedChunksExactly(total: int, chunkSize: int)
    ensures total < 0 ==> FixedChunks(total, chunkSize) == [Chunk(0, 0, -1)]
    ensures total >= 0 ==> EvenCut(FixedChunks(total, chunkSize), total, if chunkSize >= 1 then chunkSize else 4194304)
  {
    if total >= 0 { CutIsEven(total, EffectiveStep(chunkSize)); }
  }

  // The static split cuts every seg bytes, where seg is the least size n pieces of which cover
  // the file.
  lemma StaticChunksExactly(total: int, n: int) returns (seg: int)
    requires total >= 1
    ensures seg >= 1 && EvenCut(StaticChunks(total, n), total, seg)
    ensures var parts := if n < 1 then 1 else n; parts * seg >= total && parts * (seg - 1) < total
  {
    var parts := Max(n, 1);
    seg := CeilDiv(total, parts);
    CeilDivCovers(total, parts);
    CutIsEven(total, seg);
    LeastCover(total, parts, seg);
  }

  lemma LeastCover(a: int, n: int, q: int)
    requires n >= 1 && q == (a + n - 1) / n
    ensures n * (q - 1) < a
  {
    assert a + n - 1 == n * q + (a + n - 1) % n;
    assert n * (q - 1) == n * q - n;
  }

  // The segment count: as many pieces of twice the minimum as fit, but no more than asked for;
  // if not even one fits, as many as asked for.
  lemma AriaSplitExactly(total: int, split: int, minSplit: int)
    requires total >= 1 && split >= 1
    ensures var n, m := AriaSplit(total, split, minSplit).0, if minSplit < 1 then 1 else minSplit;
            if total < 2 * m then n == split
            else 1 <= n <= split && n * (2 * m) <= total && (n == split || (n + 1) * (2 * m) > total)
  {
    var m := Max(minSplit, 1);
    var k := total / (2 * m);
    Quotient(total, 2 * m, k);
    if total >= 2 * m {
      if k < 1 { MulMonotone(2 * m, k + 1, 1); }
      if split < k { MulMonotone(2 * m, split, k); }
    } else {
      if k >= 1 { MulMonotone(2 * m, 1, k); }
    }
  }

  lemma Quotient(a: int, d: int, k: int)
    requires d >= 1 && k == a / d
    ensures k * d <= a < (k + 1) * d && k * d == d * k && (k + 1) * d == d * (k + 1) == d * k + d
  {
    assert a == d * k + a % d;
  }

  // ----- layouts -----

  // Two regions exactly for the profile that asks for them, on a file of at least 4 MiB that can
  // be had in ranges and at least two connections: then the first half of the file, rounded
  // down, is shared in chunks and the rest is split statically. Otherwise the whole file is one
  // region, static exactly for the other profile's files of known size.
  lemma LayoutExactly(o: Options, p: Probe)
    ensures var plan := MakePlan(o, p);
            && 1 <= |plan.regions| <= 2 && plan.regions[0].base == 0
            && (|plan.regions| == 2
                <==> o.profile == Both && !p.singleStream && p.totalSize >= 4194304 && o.conns >= 2)
            && (|plan.regions| == 2 ==>
                  && plan.splitAt == plan.regions[1].base == p.totalSize / 2
                  && plan.regions[0].stealing && plan.regions[0].chunks == FixedChunks(p.totalSize / 2, o.chunkSize)
                  && !plan.regions[1].stealing
                  && plan.regions[1].chunks
                     == StaticChunks(p.totalSize - p.totalSize / 2,
                                     AriaSplit(p.totalSize - p.totalSize / 2, o.split, o.minSplit).0))
            && (|plan.regions| == 1 ==>
                  && plan.splitAt == 0
                  && (plan.regions[0].stealing <==> o.profile != Aria2c || p.singleStream || p.totalSize <= 0)
                  && plan.regions[0].chunks
                     == if plan.regions[0].stealing
                        then FixedChunks(if p.singleStream then -1 else p.totalSize, o.chunkSize)
                        else StaticChunks(p.totalSize, AriaSplit(p.totalSize, o.split, o.minSplit).0))
  {
  }

  // ----- the crew -----

  // The workers Start launches: in two regions one half of the connections each, the odd one to
  // the second; in one region all of them, the number asked for or raised to before the start,
  // but no more than segments of a static split, and one for a plain stream of unknown size.
  lemma CrewExactly(o: Options, p: Probe)
    requires o.conns >= 1
    ensures var plan := MakePlan(o, p);
            var ks, n := InitialWorkers(o, p, plan), |InitialWorkers(o, p, plan)|;
            && (|plan.regions| == 2 ==>
                  n == o.conns && forall w :: 0 <= w < n ==> ks[w] == Worker(if w < o.conns / 2 then 0 else 1, Top))
            && (|plan.regions| == 1 ==>
                  && (forall w :: 0 <= w < n ==> ks[w] == Worker(0, Top))
                  && n == if p.singleStream && p.totalSize <= 0 then 1
                          else
                            var wanted := if o.preset > o.conns then o.preset else o.conns;
                            if plan.regions[0].stealing then wanted
                            else Min(wanted, AriaSplit(p.totalSize, o.split, o.minSplit).0))
  {
  }

  // Opening the destination of a file of known size fits it to that size and keeps what is there.
  lemma OpenKeeps(p: Probe, d: seq<byte>)
    requires p.totalSize > 0
    ensures var e := OpenDisk(p, d);
            |e| == p.totalSize && forall i :: 0 <= i < |e| ==> e[i] == if i < |d| then d[i] else 0
  {
  }

  // ----- first come, first served -----

  // The first n chunks a queue hands out.
  function Handed(q: W.Queue, n: nat): seq<Chunk>
    decreases n
  {
    if n == 0 then []
    else
      match W.Pull(q)
      case (r, Some(c)) => [c] + Handed(r, n - 1)
      case (r, None) => []
  }

  lemma {:induction false} HandedInOrder(q: W.Queue, n: nat)
    requires n <= |q.pending|
    ensures Handed(q, n) == q.pending[..n]
    decreases n
  {
    if n > 0 {
      HandedInOrder(W.Pull(q).0, n - 1);
      assert q.pending[..n] == [q.pending[0]] + q.pending[1..][..n - 1];
    }
  }

  // A chunk given back to a shared queue is taken exactly if it has not failed more often than
  // allowed, and is handed out again after all that wait; a static queue never takes one back.
  lemma GivenBackGoesLast(q: W.Queue, c: Chunk, limit: nat)
    ensures var (r, again) := W.Requeue(q, c, limit);
            && (again <==> q.stealing && W.Failures(q, c.index) < limit)
            && Handed(r, |r.pending|) == q.pending + (if again then [c] else [])
            && (q.stealing ==> W.Failures(r, c.index) == W.Failures(q, c.index) + 1)
  {
    var (r, again) := W.Requeue(q, c, limit);
    HandedInOrder(r, |r.pending|);
    assert r.pending[..|r.pending|] == r.pending;
    assert q.pending + [] == q.pending;
  }
}
