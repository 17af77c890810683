// The static split (internal/download/engine.go): each segment is claimed at most once.
module StaticQueues {
  import opened Chunks
  import W = WorkQueue

  class StaticQueue {
    var chunks: seq<Chunk>
    var next: nat
    var done: set<int>

    ghost predicate Valid()
      reads this
    {
      next <= |chunks|
    }

    // What is left to hand out: the segments from `next` on that are not already done.
    function View(): W.Queue
      reads this
      requires Valid()
    {
      W.Queue(false, Missing(chunks[next..], done), done, map[])
    }

    // The building loop.
    static method Build(total: int, n: int) returns (cs: seq<Chunk>)
      ensures cs == StaticChunks(total, n)
    {
      cs := [];
      var parts := if n < 1 then 1 else n;
      if total > 0 {
        CeilDivCovers(total, parts);
        var seg := (total + parts - 1) / parts;
        var start := 0;
        while start < total
          invariant cs + CutFrom(|cs|, start, total, seg) == CutFrom(0, 0, total, seg)
          decreases total - start
        {
          var end := start + seg - 1;
          if end >= total {
            end := total - 1;
          }
          cs := cs + [Chunk(|cs|, start, end)];
          start := end + 1;
        }
      }
    }

    constructor (total: int, n: int)
      ensures Valid() && next == 0 && done == {} && chunks == StaticChunks(total, n)
      ensures View() == W.Fresh(false, StaticChunks(total, n))
    {
      next, done := 0, {};
      var cs := Build(total, n);
      chunks := cs;
      new;
      assert chunks[0..] == chunks;
      W.MissingNone(chunks, {});
    }

    method Next() returns (c: Option<Chunk>)
      requires Valid()
      modifies this`next
      ensures Valid()
      ensures (View(), c) == W.Pull(old(View()))
    {
      while next < |chunks|
        invariant Valid()
        invariant View() == old(View())
      {
        c := Some(chunks[next]);
        assert chunks[next..] == [chunks[next]] + chunks[next + 1..];
        next := next + 1;
        if c.value.start !in done {
          return;
        }
      }
      assert chunks[next..] == [];
      c := None;
    }

    method Requeue(c: Chunk, maxWorkerAttempts: int) returns (again: bool)
      requires Valid()
      ensures (View(), again) == W.Requeue(View(), c, maxWorkerAttempts)
    {
      again := false;
    }

    method MarkDone(c: Chunk)
      requires Valid()
      modifies this`done
      ensures Valid() && View() == W.MarkDone(old(View()), c)
    {
      W.MissingTwice(chunks[next..], done, done + {c.start});
      assert done + (done + {c.start}) == done + {c.start};
      done := done + {c.start};
    }

    method ResetCompletedOffsets(offsets: set<int>, total: int) returns (already: int, ok: bool)
      requires Valid()
      modifies this`next, this`done
      ensures Valid() && ok
      ensures done == old(done) + (offsets * Starts(chunks))
      ensures already == BytesOf(chunks, offsets)
      ensures View().pending == Missing(chunks, done)
      ensures old(next) == 0 && old(done) == {} && (forall c :: c in chunks ==> c.end >= 0) && total >= 0 ==>
                (View(), already, ok) == W.Seed(old(View()), offsets, total)
    {
      var found: set<int>;
      found, already := Claimed(chunks, offsets);
      ghost var untouched := done == {} && next == 0;
      if untouched {
        W.MissingNone(chunks, {});
        assert chunks[0..] == chunks;
      }
      done := done + found;
      next := 0;
      assert chunks[0..] == chunks;
      while next < |chunks|
        invariant Valid()
        invariant done == old(done) + found
        invariant Missing(chunks[next..], done) == Missing(chunks, done)
      {
        assert chunks[next..] == [chunks[next]] + chunks[next + 1..];
        if chunks[next].start in done {
          next := next + 1;
        } else {
          break;
        }
      }
      if untouched {
        assert forall c :: c in chunks ==> c.start in Starts(chunks);
        SameFilter(chunks, done, offsets);
        assert done == {} + (offsets * Starts(chunks));
      }
      if total >= 0 && forall c :: c in chunks ==> c.end >= 0 {
        BytesAgree(chunks, offsets, total);
      }
      ok := true;
    }

    static method Claimed(chunks: seq<Chunk>, offsets: set<int>) returns (found: set<int>, already: int)
      ensures found == offsets * Starts(chunks)
      ensures already == BytesOf(chunks, offsets)
    {
      found, already := {}, 0;
      for i := 0 to |chunks|
        invariant found == offsets * Starts(chunks[..i])
        invariant already == BytesOf(chunks[..i], offsets)
      {
        var c := chunks[i];
        W.ScanStep(chunks, i, offsets, 0);
        assert chunks[..i + 1] == chunks[..i] + [c];
        BytesOfAppend(chunks[..i], [c], offsets);
        if c.start in offsets {
          found := found + {c.start};
          already := already + (c.end - c.start + 1);
        }
      }
      assert chunks[..|chunks|] == chunks;
    }
  }

  // Bytes of the segments in `starts`, read off the segment bounds alone.
  function BytesOf(cs: seq<Chunk>, starts: set<int>): int
  {
    if cs == [] then 0
    else (if cs[0].start in starts then cs[0].end - cs[0].start + 1 else 0) + BytesOf(cs[1..], starts)
  }

  lemma {:induction false} BytesOfAppend(a: seq<Chunk>, b: seq<Chunk>, starts: set<int>)
    ensures BytesOf(a + b, starts) == BytesOf(a, starts) + BytesOf(b, starts)
  {
    if a == [] {
      assert a + b == b;
    } else {
      assert (a + b)[1..] == a[1..] + b;
      BytesOfAppend(a[1..], b, starts);
    }
  }

  lemma {:induction false} BytesAgree(cs: seq<Chunk>, starts: set<int>, total: int)
    requires total >= 0 && forall c :: c in cs ==> c.end >= 0
    ensures BytesOf(cs, starts) == BytesIn(cs, starts, total)
  {
    if cs != [] {
      assert forall c :: c in cs[1..] ==> c in cs;
      BytesAgree(cs[1..], starts, total);
    }
  }

  lemma {:induction false} SameFilter(cs: seq<Chunk>, a: set<int>, b: set<int>)
    requires forall c :: c in cs ==> (c.start in a <==> c.start in b)
    ensures Missing(cs, a) == Missing(cs, b)
  {
    if cs != [] {
      assert forall c :: c in cs[1..] ==> c in cs;
      SameFilter(cs[1..], a, b);
    }
  }
}
