// The shared state of the scheduler and its critical sections, as values
// (internal/scheduler/queue.go). Each function is one section under the mutex.
module SchedulerCore {
  import opened Chunks

  const MAX_PENDING := 128

  // counted: the entry was added to the wait group when it was queued.
  datatype Entry = Entry(id: nat, conns: int, counted: bool)

  // wg is the wait-group counter; idle says that the daemon's permanent hold is part of it.
  // live maps a running task to its connection count.
  datatype Core = Core(slots: nat, queue: seq<Entry>, live: map<nat, int>, wg: int, idle: bool, windingDown: bool)

  // A scheduler for a plan, and the daemon's empty one, parked on its idle hold.
  function OneShot(slots: nat): Core
  {
    Core(slots, [], map[], 0, false, false)
  }

  function Daemon(slots: nat): Core
  {
    Core(slots, [], map[], 1, true, false)
  }

  datatype Refusal = ShuttingDown | TooManyPending

  datatype Accepted = Yes | No(why: Refusal)

  function Enqueue(k: Core, e: Entry): (Core, Accepted)
  {
    if k.windingDown then (k, No(ShuttingDown))
    else if |k.queue| >= MAX_PENDING then (k, No(TooManyPending))
    else (k.(wg := k.wg + 1, queue := k.queue + [e.(counted := true)]), Yes)
  }

  // Pop, and take the slot, in one section.
  function Admit(k: Core): (Core, Option<Entry>)
  {
    if k.queue == [] || |k.live| >= k.slots then (k, None)
    else (k.(queue := k.queue[1..], live := k.live[k.queue[0].id := k.queue[0].conns]), Some(k.queue[0]))
  }

  function AddCounter(k: Core): (Core, bool)
  {
    if k.windingDown then (k, false) else (k.(wg := k.wg + 1), true)
  }

  function ReleaseIdle(k: Core): Core
  {
    if k.idle then k.(wg := k.wg - 1, idle := false) else k
  }

  function Forget(k: Core, id: nat): Core
  {
    k.(live := k.live - {id})
  }

  function CountedIn(q: seq<Entry>): nat
  {
    if q == [] then 0 else (if q[0].counted then 1 else 0) + CountedIn(q[1..])
  }

  // Set the flag and empty the queue; the caller owes one Done per counted entry.
  function WindDown(k: Core): (Core, nat)
  {
    (k.(windingDown := true, queue := []), CountedIn(k.queue))
  }

  lemma {:induction false} CountedAppend(q: seq<Entry>, e: Entry)
    ensures CountedIn(q + [e]) == CountedIn(q) + if e.counted then 1 else 0
  {
    if q == [] {
      assert [] + [e] == [e] && [e][1..] == [];
    } else {
      assert (q + [e])[1..] == q[1..] + [e];
      CountedAppend(q[1..], e);
    }
  }
}
