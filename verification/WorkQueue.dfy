// What a chunk source promises its workers (the workQueue interface of
// internal/download/engine.go), as a value that both queue classes refine.
module WorkQueue {
  import opened Chunks

  // stealing: true for the shared fixed-chunk queue, false for the static split.
  // pending is in hand-out order; failed counts requeues per chunk index.
  datatype Queue = Queue(stealing: bool, pending: seq<Chunk>, done: set<int>, failed: map<nat, nat>)

  function Fresh(stealing: bool, chunks: seq<Chunk>): Queue
  {
    Queue(stealing, chunks, {}, map[])
  }

  function Failures(q: Queue, index: nat): nat
  {
    if index in q.failed then q.failed[index] else 0
  }

  function Pull(q: Queue): (Queue, Option<Chunk>)
  {
    if q.pending == [] then (q, None) else (q.(pending := q.pending[1..]), Some(q.pending[0]))
  }

  // A static segment is never requeued. A stealing queue takes a chunk back until it
  // has failed more than `limit` times.
  function Requeue(q: Queue, c: Chunk, limit: int): (Queue, bool)
  {
    if !q.stealing then (q, false)
    else
      var n := Failures(q, c.index) + 1;
      var q1 := q.(failed := q.failed[c.index := n]);
      if n > limit then (q1, false) else (q1.(pending := q.pending + [c]), true)
  }

  // A static queue skips done segments when handing out work; a stealing queue does not.
  function MarkDone(q: Queue, c: Chunk): Queue
  {
    var d := q.done + {c.start};
    q.(done := d, pending := if q.stealing then q.pending else Missing(q.pending, d))
  }

  // Seeding a fresh queue with the offsets found on disk: bytes counted, and whether
  // the set is compatible with the layout.
  function Seed(q: Queue, offsets: set<int>, total: int): (Queue, int, bool)
  {
    if q.stealing && |offsets| > |q.pending| then (q.(failed := map[]), 0, false)
    else
      (Queue(q.stealing, Missing(q.pending, offsets), q.done + (offsets * Starts(q.pending)),
             if q.stealing then map[] else q.failed),
       BytesIn(q.pending, offsets, total), true)
  }

  lemma {:induction false} MissingNone(cs: seq<Chunk>, done: set<int>)
    requires forall c :: c in cs ==> c.start !in done
    ensures Missing(cs, done) == cs
  {
    if cs != [] {
      assert forall c :: c in cs[1..] ==> c in cs;
      MissingNone(cs[1..], done);
      assert cs == [cs[0]] + cs[1..];
    }
  }

  lemma {:induction false} MissingAppend(a: seq<Chunk>, b: seq<Chunk>, done: set<int>)
    ensures Missing(a + b, done) == Missing(a, done) + Missing(b, done)
  {
    if a == [] {
      assert a + b == b;
    } else {
      assert (a + b)[1..] == a[1..] + b;
      MissingAppend(a[1..], b, done);
    }
  }

  lemma {:induction false} BytesAppend(a: seq<Chunk>, b: seq<Chunk>, starts: set<int>, total: int)
    ensures BytesIn(a + b, starts, total) == BytesIn(a, starts, total) + BytesIn(b, starts, total)
  {
    if a == [] {
      assert a + b == b;
    } else {
      assert (a + b)[1..] == a[1..] + b;
      BytesAppend(a[1..], b, starts, total);
    }
  }

  lemma StartsSnoc(a: seq<Chunk>, c: Chunk)
    ensures Starts(a + [c]) == Starts(a) + {c.start}
  {
    forall x
      ensures x in Starts(a + [c]) <==> x in Starts(a) + {c.start}
    {
      if x in Starts(a) {
        var k :| 0 <= k < |a| && a[k].start == x;
        assert a[k] in a + [c];
      }
      assert c in a + [c];
    }
  }

  // One step of a scan over a chunk list: what the scanned prefix gains.
  lemma ScanStep(all: seq<Chunk>, i: nat, done: set<int>, total: int)
    requires i < |all|
    ensures Missing(all[..i + 1], done) == Missing(all[..i], done) + (if all[i].start in done then [] else [all[i]])
    ensures BytesIn(all[..i + 1], done, total)
         == BytesIn(all[..i], done, total) + (if all[i].start in done then ChunkBytes(all[i], total) else 0)
    ensures done * Starts(all[..i + 1])
         == done * Starts(all[..i]) + (if all[i].start in done then {all[i].start} else {})
  {
    assert all[..i + 1] == all[..i] + [all[i]];
    MissingAppend(all[..i], [all[i]], done);
    BytesAppend(all[..i], [all[i]], done, total);
    StartsSnoc(all[..i], all[i]);
  }

  // Filtering twice is filtering once by the union.
  lemma {:induction false} MissingTwice(cs: seq<Chunk>, a: set<int>, b: set<int>)
    ensures Missing(Missing(cs, a), b) == Missing(cs, a + b)
  {
    if cs != [] {
      MissingTwice(cs[1..], a, b);
      if cs[0].start !in a {
        assert Missing(cs, a)[0] == cs[0];
        assert Missing(cs, a)[1..] == Missing(cs[1..], a);
      }
    }
  }
}
