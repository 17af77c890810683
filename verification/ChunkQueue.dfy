// The shared work-stealing queue (internal/download/chunkqueue.go).
module ChunkQueues {
  import opened Chunks
  import W = WorkQueue

  class ChunkQueue {
    var chunks: seq<Chunk>
    var completed: set<int>
    var failed: map<nat, nat>

    // The queue as a workQueue value.
    function View(): W.Queue
      reads this
    {
      W.Queue(true, chunks, completed, failed)
    }

    constructor (total: int, chunkSize: int)
      ensures View() == W.Fresh(true, FixedChunks(total, chunkSize))
    {
      completed, failed := {}, map[];
      var cs: seq<Chunk> := [];
      if total < 0 {
        cs := [Chunk(0, 0, -1)];
      } else {
        var step := if chunkSize < 1 then DEFAULT_CHUNK_SIZE else chunkSize;
        var idx: nat, start := 0, 0;
        while start < total
          invariant cs + CutFrom(idx, start, total, step) == CutFrom(0, 0, total, step)
          decreases total - start
        {
          var end := start + step - 1;
          if end >= total {
            end := total - 1;
          }
          cs := cs + [Chunk(idx, start, end)];
          start := end + 1;
          idx := idx + 1;
        }
      }
      chunks := cs;
    }

    // The in-place filter: kept chunks are written over the front of the list that is
    // still being read, never ahead of the read position.
    method ResetCompletedOffsets(done: set<int>, total: int) returns (already: int, ok: bool)
      modifies this
      ensures ok <==> |done| <= |old(chunks)|
      ensures !ok ==> already == 0 && chunks == old(chunks) && completed == old(completed)
      ensures ok ==> chunks == Missing(old(chunks), done) && completed == done * Starts(old(chunks))
      ensures ok ==> already == BytesIn(old(chunks), done, total)
      ensures failed == map[]
      ensures old(completed) == {} ==> (View(), already, ok) == W.Seed(old(View()), done, total)
    {
      failed := map[];
      if |done| > |chunks| {
        return 0, false;
      }
      chunks, completed, already := FilterInPlace(chunks, done, total);
      assert completed == {} + completed;
      ok := true;
    }

    static method FilterInPlace(all: seq<Chunk>, done: set<int>, total: int)
      returns (left: seq<Chunk>, completed: set<int>, already: int)
      ensures left == Missing(all, done)
      ensures completed == done * Starts(all)
      ensures already == BytesIn(all, done, total)
    {
      completed := {};
      var buf := all;
      var kept := 0;
      already := 0;
      for i := 0 to |buf|
        invariant 0 <= kept <= i && |buf| == |all|
        invariant buf[i..] == all[i..]
        invariant buf[..kept] == Missing(all[..i], done)
        invariant completed == done * Starts(all[..i])
        invariant already == BytesIn(all[..i], done, total)
      {
        var c := buf[i];
        assert c == all[i] by { assert buf[i..][0] == all[i..][0]; }
        W.ScanStep(all, i, done, total);
        if c.start in done {
          completed := completed + {c.start};
          already := already + ChunkBytes(c, total);
          assert buf[i + 1..] == all[i + 1..] by { KeepInPlace(buf, all, i, i); }
        } else {
          KeepInPlace(buf, all, kept, i);
          buf := buf[kept := c];
          kept := kept + 1;
        }
      }
      left := buf[..kept];
      assert all[..|all|] == all;
    }

    method Requeue(c: Chunk, maxWorkerAttempts: int) returns (again: bool)
      modifies this
      ensures (View(), again) == W.Requeue(old(View()), c, maxWorkerAttempts)
    {
      var n := if c.index in failed then failed[c.index] else 0;
      failed := failed[c.index := n + 1];
      if failed[c.index] > maxWorkerAttempts {
        return false;
      }
      chunks := chunks + [c];
      return true;
    }

    method Next() returns (c: Option<Chunk>)
      modifies this
      ensures (View(), c) == W.Pull(old(View()))
    {
      if |chunks| == 0 {
        return None;
      }
      c := Some(chunks[0]);
      chunks := chunks[1..];
    }

    method MarkDone(c: Chunk)
      modifies this
      ensures View() == W.MarkDone(old(View()), c)
    {
      if c.start !in completed {
        completed := completed + {c.start};
      }
    }
  }

  // Overwriting position kept <= i keeps the unread part, and appends to the kept part.
  lemma KeepInPlace(buf: seq<Chunk>, all: seq<Chunk>, kept: nat, i: nat)
    requires kept <= i < |buf| == |all| && buf[i..] == all[i..]
    ensures buf[kept := all[i]][..kept + 1] == buf[..kept] + [all[i]]
    ensures buf[kept := all[i]][i + 1..] == all[i + 1..]
  {
    assert buf[kept := all[i]][i + 1..] == buf[i + 1..] == buf[i..][1..];
    assert all[i + 1..] == all[i..][1..];
  }
}
