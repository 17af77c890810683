# Verified model of a parallel download manager

Two components of the program are modelled, each as the state machine it is.

**The download task engine** (`internal/download`) lays a file out as chunks, lets a crew of
workers fetch them with retries, requeues and a connection count that may change while they
work, writes checkpoints, and resumes from a checkpoint after a crash or a cancel. The claim it
exists for is that a task that says Completed leaves the server's file on disk. Here that is
`WorldProof.EndToEnd`: over every sequence of runs with arbitrary options, cut off at arbitrary
steps, over a server that may ignore ranges, answer other ranges, truncate or fail, and a file
that may be damaged in any way between runs.

**The scheduler** (`internal/scheduler`) splits a connection budget over a batch, runs the batch
in slots, admits waiting tasks as slots free up and winds down on cancel. `internal/ratelimit`
is modelled as the state machine of its calls, and once more of their single atomic accesses.

How the project is laid out:

| files | what they model |
|---|---|
| `Chunks`, `WorkQueue`, `ChunkQueue`, `StaticQueue` | chunk arithmetic; the two queue classes, each method tied to a value function |
| `Int64` | the layout arithmetic in wrapping 64-bit integers |
| `Layout`, `Shapes` | the three layouts, the resume guard, spans, splitting offsets over regions; what exactly is laid out, who works on it and in which order |
| `Task`, `Connections`, `ContentRange` | what the task's own goroutine does: layout, resume, hash verification, copying a body, checkpoints; the connection counters; the range guard |
| `Workers` | the worker protocol as a step relation: each atomic load, compare-and-swap, queue operation, request, write, hash and checkpoint is one step |
| `Ownership`, `Contents`, `World`, `WorldProof` | who holds which chunk; what the bytes and digests are worth; sequences of runs; the end-to-end theorem |
| `Drain`, `Runs`, `IntactResume`, `Accounting`, `BoundedWork`, `Termination`, `Fatal`, `Replies`, `Cancelling`, `Patience`, `Completion`, `ResumeEffects`, `UnknownSize` | schedules that keep a worker; facts of every schedule; verifiable checkpoints and resuming from them; byte counts; bounded fetches; why runs end; answers no run recovers from; what becomes of each answer; what a cancel does; what a chunk is given before an error; when a run completes; when a checkpoint is taken over and what that saves; files without a known size |
| `Witness`, `ReductionWitness` | histories that show the theorem's restrictions are needed |
| `Balancer`, `Rebalance`, `RebalanceEffects` | dealing a budget, at the start and at run time; when that lowers a target, and what it costs |
| `SchedulerCore`, `SchedulerQueue`, `SchedulerRun`, `SchedulerProof`, `SchedulerResults`, `SchedulerService` | the critical sections as functions and as a class; the protocol; its invariant; what it never does; what it does for its callers |
| `Pause`, `RateLimit`, `RateAccess`, `DaemonHooks` | the pause gate, the adaptive limiter by calls and by accesses, the end-of-run hooks |

The worker step relation itself is `Workers.Can` and `Workers.Do`, the scheduler's is
`SchedulerRun.Can` and `SchedulerRun.Do`; the layout Start chooses is `Layout.MakePlan`, and
what it does before the first worker starts is `World.Prepare`.

How things are represented. Bytes are a bounded integer type and a file is a sequence of them. A digest carries the
bytes it was made from, so hashing is injective by construction. The server is a fixed content;
a reply has a status, an optional declared start, a body and the way it ends, and the only thing
assumed of it is that a 206 that declares a start, or a 2xx to a plain request, carries the
content from that place on (it may stop early, run on, or be refused by the guards). The
decision whether two ETags differ, the outcome of the sampled comparison with the server, and
whether the control file could be written are free choices of each run. A control file is
replaced atomically. Integers are unbounded everywhere but in `Int64`: what is said of layouts
holds of the program for every plan that passes the guard of `Int64.PlanExactly`, and of no other.

What turned out to hold only in part, with its exact condition and a concrete history:

- A run of known positive size delivers; of zero or unknown size it may not (`Witness.DeliversExactly`):
  if its clean bodies are complete, it delivers if and only if the file was not longer before
  (`UnknownSize.UnknownSizeExactly`).
- Lowering the connection target can leave a hole: in a two-region layout because it is blind to
  regions (`ReductionWitness.RegionBlindReduction`), in a single-region one because a worker that has
  seen an empty queue is still counted when a chunk is given back (`ReductionWitness.ReductionHole`).
  A run survives every sequence of targets if and only if it has one region and either never takes a
  chunk back (no retries, or a static split) or starts with one worker
  (`ReductionWitness.ReductionsExactly`). For all other runs never lowering is enough
  (`Drain.EndToEndNeverLowered`), and so is retiring from queued work, in single-region runs, only while
  nobody is on the way out (`Drain.EndToEndReduced`); after an error or a cancel anything goes.
- The scheduler itself lowers targets. A completion alone never does (`RebalanceEffects.LeavingNeverLowers`);
  a completion with an admission does if and only if the newcomer displaces the last one served
  (`RebalanceEffects.ReplacementLowersExactly`), and then, and only then, some download that stays has a
  history that ends with the wrong file (`RebalanceEffects.ReplacementHarmlessExactly`). The first rebalance
  can lower a target even without an admission, unless the plan agrees with it
  (`RebalanceEffects.PlanAgreesExactly`, `RebalanceEffects.PlanLowered`).
- The recomputed span of a chunk is its byte range except for the last chunk of region 1 when the
  chunk size does not divide the split offset (`Layout.SpanAgreement`, `Layout.OverhangExactly`). After a
  crash that leaves the file intact the next run takes the checkpoint over if and only if the sample
  agrees and no listed chunk overhangs (`IntactResume.ResumeAfterCrash`); for every two-region layout
  with such a chunk there is a history that ends in a rejection (`IntactResume.IntactYetRejected`).
- The segment arithmetic wraps when size plus segment count passes 2^63: `Int64.PlanExactly` is the
  exact guard, and with two bytes, a split of 2^63-1 and the default minimum the loop runs backwards
  (`Int64.HugeSplit`).
- A control file with more region-1 offsets than region 1 has chunks is refused, but its region-2
  offsets stay marked done (`World.RefusedControlKeepsRegion2`): the refusal is a fresh start if and only
  if no listed offset begins a region-2 chunk (`World.RefusalIsFreshExactly`). Control files the program
  wrote never look like that (`World.TwoRegionSeedAccepted`).
- A one-shot batch with waiting files may return before they have run
  (`SchedulerResults.CompleteExactlyWhenNoneWaits`, `QueueForgotten`). It may also add to a wait group
  already seen at zero: a scheduler never does that if and only if it is a daemon's, or nothing waits,
  or there is no slot (`SchedulerResults.ReusedExactly`, `AddedAfterZero`).
- A negative split, which the balancer does not refuse, leaves files without a connection unless there
  is one file, or only the first of several can use ranges (`Balancer.Compute`).
- A rate cap below 64 KiB/s is raised by a back-off, and a cap just set is overrun by a rate that was
  read before: a cap holds if and only if it is not below the minimum and every rate in flight fits it
  (`RateAccess.CapHonouredExactly`, `RateAccess.LoweredCapOverrun`).
- Switching the limit off holds if and only if no restore past its compare-and-swap and no back-off past
  its load is in flight (`RateAccess.SwitchOffSurvivesExactly`, `RateAccess.SwitchOffUndone`).

Where the code and its comments differ, the code is followed: `AriaSplit` keeps the requested
split when the size allows no segment of twice the minimum; the branch of `admitNext` that gives
a slot back during wind-down is never taken by either kind of scheduler (`SchedulerProof.Always`
keeps `refused` empty).

## Model

| member | source | states |
|---|---|---|
| `WorldProof.EndToEnd` | internal/download/task_start.go:159-439 | Over every history of runs, crashes, cancels and damage, with any options each time, a run of known size that ends Completed leaves the server's content on disk, provided a retiring worker always leaves another one in its region |
| `Drain.EndToEndNeverLowered` | internal/download/task.go:398-439 | The same with a restriction a caller can keep: no connection target is lowered before an error or a cancel; one region or two |
| `Drain.EndToEndReduced` | internal/download/task_io.go:126-136 | The same when runs that survive reductions, and all runs after an error or a cancel, get any targets; other single-region runs as long as nobody retires from queued work while a worker that left its loop is still counted; two-region targets do not fall |
| `ReductionWitness.ReductionsExactly` | internal/download/task_io.go:34-136 | For every content of known size and all histories that launch with given options, with any targets at any time: every Completed run delivers if and only if there is one region and no retries, or a static split, or a single worker |
| `Witness.DeliversExactly` | internal/download/task_start.go:336-439 | For any probe the server could answer truthfully, all histories without a retarget deliver if and only if the size is known and positive |
| `Witness.StaleTail` | internal/download/task_start.go:295-301 | For size zero or unknown, a longer file left on disk keeps its tail in a Completed run |
| `UnknownSize.UnknownSizeExactly` | internal/download/task_start.go:295-301 | A fresh run of a file of unknown or zero size, in any history, whose clean bodies are complete and which ends Completed: the file is the server's if and only if what was there before was not longer |
| `ReductionWitness.ReductionHole` | internal/download/task_io.go:34-71 | For every content, every single-region work-stealing run with retries and every smaller target: a history in which this one reduction meets an undecremented leaver ends Completed with a wrong file |
| `ReductionWitness.TargetSurvivedExactly` | internal/download/task.go:398-439 | A single-region run survives being sent to a given target, at any times, if and only if it survives every reduction or the target is no reduction |
| `ReductionWitness.RegionBlindReduction` | internal/download/task_io.go:126-136 | For every content and two-region run: a history in which a reduction takes region 2's last worker ends Completed with a wrong file |
| `Ownership.StepKeeps` | internal/download/task_io.go:48-136 | A step keeps "each chunk is queued, held by one worker, done or accounted for by an error, and queued work has a worker that will come back for it" if and only if it is not, in a run without error or cancel, the retirement of the last worker of a region with queued work |
| `Ownership.OwnedKept` | internal/download/chunkqueue.go:107-141 | On any schedule no chunk is ever in two places or in two hands |
| `Ownership.NothingSkipped` | internal/download/task_start.go:405-428 | When all workers have gone with no error and no cancel, every queue is empty and the done set is exactly the layout |
| `IntactResume.NoTwoOnOneByte` | internal/download/engine.go:75-136 | At every moment of every history chunks queued, held or done occupy disjoint bytes; a held chunk is nowhere else and has one holder |
| `Contents.StepIntact` | internal/download/task_io.go:256-431 | With a server that never mislabels bytes every step, on any schedule, keeps all recorded digests and the bytes they stand for good |
| `Contents.AllDoneMeansEqual` | internal/download/task_start.go:428-439 | When every chunk of the layout is done the disk equals the content |
| `Contents.CheckpointVerifiable` | internal/download/task_persist.go:77-106 | Each offset in a control file saved by the run carries a digest, and it is of the bytes now on disk for the chunk there |
| `Runs.EveryCheckpointVerifiable` | internal/download/resume_impl.go:164-175 | The same at every moment of every history, whatever the schedule |
| `IntactResume.IntactSpan` | internal/download/resume_impl.go:280-291 | A completed chunk's recomputed span matches its digest exactly when it does not overhang the region boundary |
| `IntactResume.ResumeAfterCrash` | internal/download/task_start.go:240-334 | At any moment of any history, crash with the file untouched and launch under any options that pass the guard: the checkpoint is taken over if and only if the sample agrees and no listed chunk overhangs |
| `IntactResume.IntactYetRejected` | internal/download/resume_impl.go:305-323 | For every content and two-region layout whose chunk size does not divide the split offset: a history after which an intact file is rejected |
| `IntactResume.OneRegionResumes` | internal/download/resume_impl.go:305-323 | A single-region checkpoint over an intact file is rejected only by the sample, under any options that pass the guard |
| `ResumeEffects.TakenOverExactly` | internal/download/task_start.go:240-334 | At any moment of any history with an own, non-empty checkpoint, crash with the file untouched and launch with any options: the new run has exactly the listed chunks done, all others queued and their bytes counted, if and only if resuming is asked for, the ETags do not differ, the sample agrees, no listed chunk overhangs, and the recorded size, chunk size, split offset and region-2 segment are those of the new layout with the profile equal or unset |
| `ResumeEffects.SameCommandResumes` | internal/download/task_start.go:249-253 | With the same options again, whatever the profile, it does |
| `ResumeEffects.ListedNeverAsked` | internal/download/task_start.go:254-293 | and no execution of the new run ever requests a listed chunk |
| `ResumeEffects.AllListedEndsAtOnce` | internal/download/task_start.go:336-348 | If every chunk was listed, the new run ends Completed without a worker, and the control file is gone |
| `ResumeEffects.CheckpointLists` | internal/download/task_persist.go:72-118 | A checkpoint being saved lists every chunk that was done in both regions when it was begun, and nothing that is not done when it ends |
| `Accounting.BalancedAlong` | internal/download/task_io.go:184-206 | On any schedule, in every state of an uncancelled run of known size, the byte counter is resumed plus done plus in-flight bytes |
| `Accounting.StepBalanced` | internal/download/task_io.go:407-437 | No step, in particular no roll-back of one worker, disturbs that balance |
| `Accounting.ProgressWithinFile` | internal/download/task_io.go:433-437 | On any schedule, if bodies are no longer than asked for, the counter of an uncancelled run stays between zero and the file size |
| `Accounting.CompletedCount` | internal/download/task_start.go:419-428 | At Completed the counter is the file size |
| `Accounting.FullAtCompleted` | internal/download/task_start.go:419-428 | The same over histories, under the restriction of the end-to-end theorem |
| `Fatal.FatalNeverCompletes` | internal/download/task_io.go:301-357 | After one answer outside the layout (a client error but for 408 and 429, a whole body or another range for a range, a clean end at the wrong length), to any worker, no continuation of the run ends Completed |
| `Replies.AnswerExactly` | internal/download/task_io.go:242-357 | An answer, uncancelled, is copied exactly if it is a 206 declaring the start asked for, or any 2xx to a request for the whole file; it ends the chunk's attempts exactly if it is another 400 to 499 than 408 and 429, or a 200 or a 206 of another range to a ranged request; every other answer costs one attempt |
| `Replies.HopelessEndsTheChunk` | internal/download/task_io.go:88-93 | After an answer of the second kind the chunk is never requested again, by any worker, and no continuation ends Completed |
| `Replies.HealingErrorsCostAll` | internal/transport/transport.go:503-511 | While every answer is usable, missing, 408, 429 or at least 500, no error is counted before a chunk has had its full number of requests |
| `Replies.PerfectServerCompletes` | internal/download/task_start.go:386-439 | A launched run, in any history, with an untouched target, no cancel, no failing disk and a server that sends exactly what is asked ends Completed, and a file of known size is then the server's |
| `Cancelling.CancelledNeverCompletes` | internal/download/task_start.go:405-439 | After a cancel no continuation of the run ends Completed |
| `Cancelling.CancelledCanStop` | internal/download/task_io.go:48-60 | From every state of a cancelled run the workers can be brought to their end without any of them taking another chunk |
| `Patience.ErrorsCostFullAllowance` | internal/download/task_io.go:76-227 | While no answer is one that cannot heal and nobody cancels, an error is counted only for a chunk requested exactly (retry+1)^2 times from a work-stealing queue, retry+1 times from a static one, however its attempts failed |
| `Completion.RunCompletesExactly` | internal/download/task_start.go:386-439 | A launched run in any history, with an untouched target, no cancel and no answer that cannot heal, when it can go no further: it ends Completed if and only if every chunk is done or has requests left, and then with the server's bytes |
| `BoundedWork.FetchesBounded` | internal/download/task_io.go:161-227 | Each chunk is requested at most (retry+1)^2 times from a work-stealing queue and retry+1 times from a static one, in every execution |
| `BoundedWork.StepAllowance` | internal/download/chunkqueue.go:107-116 | A request uses up part of a chunk's allowance and no step adds to it |
| `Runs.FetchesOfARun` | internal/download/engine.go:140-161 | The bound for every run a history launches |
| `Termination.WorkBounded` | internal/download/task_io.go:48-116 | While nobody changes the target, at most Measure worker steps happen, however workers, server and scheduler behave |
| `Termination.StepMeasure` | internal/download/task_io.go:163-226 | Every worker step lowers the measure; checkpoints and a cancel leave it unchanged |
| `Termination.Progress` | internal/download/task_io.go:48-117 | A worker that has not exited can move, or waits for a checkpoint that can end |
| `Termination.CanFinish` | internal/download/task_start.go:405-408 | From every reachable state the workers can be brought to their end |
| `Termination.StuckMeansExited` | internal/download/task_start.go:405-408 | An execution that cannot go on has no worker left |
| `Runs.EveryRunEnds` | internal/download/task_start.go:386-408 | Both facts for every run of every history, on any schedule |
| `Layout.PlanWellLaid` | internal/download/task_start.go:209-236 | Every layout of a file of known size is made of non-empty, pairwise disjoint ranges, across both regions, that leave no byte out |
| `Shapes.LayoutExactly` | internal/download/task_start.go:209-236 | Two regions exactly for that profile, ranges, at least 4 MiB and two connections: then the first is half of the file in chunks, the second the rest in static segments; otherwise one region over the whole file |
| `Shapes.FixedChunksExactly` | internal/download/chunkqueue.go:44-69 | The cut has its boundaries at every multiple of the chunk size (4 MiB if none is given) below the file size, and at the file size |
| `Shapes.StaticChunksExactly` | internal/download/engine.go:118-136 | The static cut has them at the multiples of the least size that covers the file in that many pieces |
| `Shapes.AriaSplitExactly` | internal/download/engine.go:86-98 | The segment count is the largest that the split allows and that leaves each segment twice the minimum; the split itself if not even one fits |
| `Shapes.CrewExactly` | internal/download/task_start.go:350-404 | Two regions get half of the connections each, the odd one to the second; one region gets those asked for or raised to before the start, at most one for each static segment, one for a single stream of unknown size |
| `Shapes.HandedInOrder` | internal/download/chunkqueue.go:121-130 | A queue hands out its chunks in order |
| `Shapes.GivenBackGoesLast` | internal/download/chunkqueue.go:107-116 | A chunk given back is handed out again after all that wait, if and only if the queue is a work-stealing one and it has not failed more often than allowed |
| `Layout.GuardFixesLayout` | internal/download/task_start.go:249-253 | If a control file written under one set of options passes the guard under another, both lay out the same chunks, whatever split and minimum size were |
| `Layout.ResumeRoundTrip` | internal/download/task_start.go:255-274 | Any subset of a layout, saved as absolute offsets, split at the boundary and seeded into fresh queues leaves exactly the rest as work, counts its bytes, and is saved again unchanged |
| `Layout.SpanAgreement` | internal/download/resume_impl.go:280-323 | The recomputed span starts at the chunk, covers it, and is exactly its range if and only if it does not overhang |
| `Layout.OverhangExactly` | internal/download/resume_impl.go:305-323 | Some chunk overhangs if and only if the layout has two regions and the chunk size does not divide the split offset |
| `Int64.FixedExactly` | internal/download/chunkqueue.go:44-69 | In 64-bit integers the work-stealing loop ends with consecutive chunks from 0 to the size if and only if its last reach fits, and then they are the fixed cut |
| `Int64.StaticExactly` | internal/download/engine.go:118-136 | The static loop does if and only if size plus count minus one fits |
| `Int64.AriaExactly` | internal/download/engine.go:86-98 | The wrapping segment count is always right, although twice the minimum may wrap; the segment size is right if and only if size plus count minus one fits |
| `Int64.PlanExactly` | internal/download/task_start.go:177-238 | Every queue of a run is built as a tiling of its region if and only if the plan passes these guards |
| `Int64.SmallFilesFit` | internal/download/chunkqueue.go:52-66 | Files of up to 2^62 bytes pass with every chunk size |
| `Int64.HugeSplit` | internal/download/engine.go:118-136 | Two bytes, a split of 2^63-1 and a minimum of 20 MiB: the segment size is -1 and after k turns the loop stands at -k |
| `Chunks.TilesCover` | internal/download/engine.go:118-136 | In such a cut every byte is in a chunk |
| `Chunks.TilesDisjoint` | internal/download/engine.go:118-136 | and chunks are disjoint, in order |
| `Chunks.StaticAtMostN` | internal/download/engine.go:118-136 | The static split has at most the requested number of segments |
| `Chunks.SplitAtMostRequested` | internal/download/engine.go:86-98 | and never more than the user's split |
| `Chunks.AriaSegment` | internal/download/engine.go:86-98 | The segment size recorded for resume is the one the queue cuts with |
| `ChunkQueues.ChunkQueue.constructor` | internal/download/chunkqueue.go:44-69 | The building loop produces the fixed cut, or one whole-file chunk for a negative size |
| `ChunkQueues.ChunkQueue.ResetCompletedOffsets` | internal/download/chunkqueue.go:79-99 | Refuses more offsets than chunks; otherwise leaves the chunks not in the set, completes those that are, and counts their bytes |
| `ChunkQueues.ChunkQueue.FilterInPlace` | internal/download/chunkqueue.go:85-98 | Overwriting the list while reading it yields the filtered list |
| `ChunkQueues.ChunkQueue.Requeue` | internal/download/chunkqueue.go:107-116 | Takes a chunk back until it has failed more often than allowed |
| `ChunkQueues.ChunkQueue.Next` | internal/download/chunkqueue.go:121-130 | Hands out the head |
| `ChunkQueues.ChunkQueue.MarkDone` | internal/download/chunkqueue.go:135-141 | Adds the start offset to the completed set |
| `StaticQueues.StaticQueue.Build` | internal/download/engine.go:118-136 | The building loop produces the static cut |
| `StaticQueues.StaticQueue.constructor` | internal/download/engine.go:118-136 | A fresh static queue hands out the static cut |
| `StaticQueues.StaticQueue.Next` | internal/download/engine.go:140-156 | The cursor loop hands out the next segment that is not done |
| `StaticQueues.StaticQueue.ResetCompletedOffsets` | internal/download/engine.go:215-236 | Marks the known offsets done, counts their bytes, and leaves the others to hand out |
| `StaticQueues.StaticQueue.MarkDone` | internal/download/engine.go:164-168 | A done segment is no longer handed out |
| `Tasks.Task.LayOut` | internal/download/task_start.go:177-238 | The queues Start creates are those of the layout, fresh |
| `Tasks.Task.Resume` | internal/download/task_start.go:240-293 | Guard, region split, byte count and digests together produce exactly the prepared state the end-to-end theorem starts from |
| `Tasks.Task.Seed` | internal/download/task_start.go:254-274 | Offsets are split over the regions and only the first queue's answer decides |
| `Tasks.Task.PrepareRun` | internal/download/task_start.go:304-334 | A failed verification rebuilds everything from scratch; otherwise the resumed state stands |
| `Tasks.Task.PersistControl` | internal/download/task_persist.go:72-118 | The control file written is the one the worker machine says |
| `Tasks.Task.RestoreChunkHashes` | internal/download/resume_impl.go:134-159 | Exactly the digests of the offsets the queues took over are carried over |
| `Tasks.Task.SnapshotChunkHashes` | internal/download/resume_impl.go:164-175 | Only digests of completed offsets are saved |
| `Tasks.SplitOffsets` | internal/download/task_start.go:259-267 | Region 1 keeps its offsets, region 2 gets the others relative to its base |
| `Tasks.HasFullHashCoverage` | internal/download/resume_impl.go:211-221 | True exactly when some digest is recorded and every completed offset has one |
| `Tasks.HashSpan` | internal/download/resume_impl.go:252-266 | The buffered loop hashes exactly the span, and fails exactly when the span leaves the file |
| `Tasks.VerifyResumedHashes` | internal/download/resume_impl.go:231-271 | Accepts exactly when every completed offset's span is inside the file and has the recorded digest |
| `Tasks.CopyChunkFrom` | internal/download/task_io.go:407-431 | However a body falls into reads, the bytes written, hashed and counted are the same body, and an error leaves a prefix |
| `Tasks.CopiesCompose` | internal/download/task_io.go:407-431 | In the worker machine two copy steps are one copy of both lengths |
| `Tasks.WriteTwice` | internal/storage/file.go:64-69 | Two adjacent writes are one write |
| `World.TwoRegionSeedAccepted` | internal/download/task_start.go:269-279 | A control file this program wrote is never refused by a two-region resume |
| `World.RefusedControlKeepsRegion2` | internal/download/task_start.go:269-279 | A refused one still leaves region 2's offsets done, uncounted and unverified |
| `World.RefusalIsFreshExactly` | internal/download/task_start.go:269-279 | A refusal is a fresh start if and only if no listed offset begins a chunk of region 2 |
| `WorldProof.PrepareIsGood` | internal/download/task_start.go:240-334 | Whatever is on disk, every chunk a run starts with as done has good bytes and a digest of exactly them |
| `WorldProof.AlreadyComplete` | internal/download/task_start.go:336-348 | If the resumed bytes reach the size the disk equals the content |
| `Connections.Counters.AdjustConns` | internal/download/task.go:398-439 | Clamps to one, launches the difference when raised, launches nothing when lowered or too late |
| `Connections.Counters.RetireIfAboveTarget` | internal/download/task_io.go:126-136 | An undisturbed worker retires exactly when more are counted than wanted |
| `Connections.DrainCheckAlone` | internal/download/task_io.go:126-136 | The three atomic drain steps of the machine are that check when nothing comes between |
| `Connections.AdjustedCrew` | internal/download/task.go:398-439 | In the machine a new target, once the workers it owes have started, adds as many at the top of region 1 as it rose, none if it fell, and moves nobody else |
| `ContentRange.AcceptsExactly` | internal/download/task_io.go:242-250 | Of well-formed headers the guard accepts exactly those that start where asked |
| `ContentRange.AcceptedMeansDeclared` | internal/download/task_io.go:242-250 | Any accepted header declares that offset in digits, optionally after a plus sign |
| `ContentRange.PlusAccepted` | internal/download/task_io.go:242-250 | With a plus sign before the offset it accepts exactly the start asked for, too |
| `Balancer.Distribute` | internal/scheduler/balancer.go:232-267 | The round-robin loop gives each eligible slot quotient plus one if its rank is below the remainder |
| `Balancer.SharesConserve` | internal/scheduler/balancer.go:232-267 | The shares add up to the budget, or to nothing if no slot is eligible |
| `Balancer.ModeC` | internal/scheduler/balancer.go:163-223 | Input order kept, the parallel counts are the split budget, queued files wait with the split or one |
| `Balancer.SplitIsFair` | internal/scheduler/balancer.go:163-200 | Single-stream files get one; others at least the split, never increasing, at most two apart; the sum is the budget if any file can use it, else the number of files |
| `Balancer.SplitFits` | internal/scheduler/balancer.go:165-165 | The number of parallel files is between one and budget over split, the files and the ceiling |
| `Balancer.ModeA` | internal/scheduler/balancer.go:126-136 | The whole budget up to the ceiling, or one for a single stream |
| `Balancer.ModeB` | internal/scheduler/balancer.go:141-156 | One connection each, the budget limits how many run |
| `Balancer.Compute` | internal/scheduler/balancer.go:73-120 | The three refusals and exactly when; every plan keeps the order and uses the budget: one file gets the budget up to the ceiling, or one connection; with split 0 budget, files and ceiling say how many run, with one connection each; with a positive split as many run as budget over split, files and ceiling allow, and share the budget fairly and fully if one of them can use ranges; every file has a connection if and only if the split is not negative, or there is one file, or only the first can use ranges |
| `Rebalance.RebalanceTargets` | internal/scheduler/rebalance.go:23-50 | Quotient and remainder give the same targets as dealing the surplus over a row of ones |
| `Rebalance.TargetsConserve` | internal/scheduler/rebalance.go:23-50 | Everyone keeps one, single streams stay at one, the sum never exceeds the budget and reaches it exactly when it can |
| `Rebalance.AgreesWithPlan` | internal/scheduler/rebalance.go:23-50 | With a split of one the balancer's own plan is what the rebalancer computes |
| `RebalanceEffects.PlanAgreesExactly` | internal/scheduler/rebalance.go:23-50 | With any split that fits, the plan is what the rebalancer computes if and only if no file can use ranges or one of the plan's two dealings, of the rest and of what single streams free, comes out even |
| `RebalanceEffects.PlanLowered` | internal/scheduler/queue.go:198-202 | Four files, nine connections, a split of two: the first rebalance sends the first file from four to three |
| `RebalanceEffects.LeavingNeverLowers` | internal/scheduler/queue.go:198-202 | When a task ends and nothing is admitted no target falls |
| `RebalanceEffects.ReplacementLowersExactly` | internal/scheduler/rebalance.go:55-96 | When one task ends and another is admitted, at any places in the id order, some target falls if and only if the newcomer can use ranges, some task that stays can too, and the newcomer is dealt in before the surplus runs out or, after a range-capable one, before the last one served and the departed stood behind that |
| `RebalanceEffects.ReplacementHarmlessExactly` | internal/scheduler/rebalance.go:75-88 | Live downloads, launched with their targets, of single-region files with retries: all that stay survive their new targets in all histories if and only if nobody is displaced |
| `RebalanceEffects.TargetsAtLeastSplit` | internal/scheduler/rebalance.go:23-50 | A range-capable task is never sent below the split while the live tasks fit the budget |
| `SchedulerProof.Always` | internal/scheduler/queue.go:130-236 | In every reachable state the wait group counts idle hold, counted waiting tasks, admitted tasks and owed releases, every task is in exactly one place, and slots, queue and order are kept |
| `SchedulerResults.NeverAddedAfterZero` | internal/scheduler/queue.go:251-260 | In the daemon, and in one-shot plans without waiting files, nothing is added to the wait group once it may have been seen at zero |
| `SchedulerResults.ReusedExactly` | internal/scheduler/queue.go:407-430 | Over all executions that holds if and only if the scheduler is a daemon's, or nothing waits, or there is no slot |
| `SchedulerResults.Bounds` | internal/scheduler/queue.go:343-416 | At most slots tasks live, at most 128 waiting in a daemon, tasks admitted in the order accepted and dropped only by a wind-down, and the wait group never negative |
| `SchedulerResults.CancelledRunAccountsForAll` | internal/scheduler/queue.go:173-234 | After a cancel Run returns with nothing live and nobody blocked, and every task tallied once or dropped from the queue |
| `SchedulerResults.DaemonEndsOnlyOnCancel` | internal/scheduler/queue.go:107-121 | A daemon's Run ends only after a cancel |
| `SchedulerResults.OneShotTalliesAll` | internal/scheduler/queue.go:204-221 | Without waiting files every started task is tallied exactly once on either way out, despite the buffered channel |
| `SchedulerResults.CompleteExactlyWhenNoneWaits` | internal/scheduler/queue.go:132-141 | A one-shot Run accounts for everything on every schedule if and only if no file waits |
| `SchedulerResults.QueueForgotten` | internal/scheduler/queue.go:198-221 | One file done, one waiting: Run can return with the second never admitted |
| `SchedulerResults.AddedAfterZero` | internal/scheduler/queue.go:407-430 | Every one-shot plan with parallel and waiting files has an execution that adds to a wait group already seen at zero |
| `SchedulerResults.WindDownEnds` | internal/scheduler/queue.go:224-234 | After a cancel Run can always be brought to its return within a bounded number of steps |
| `SchedulerResults.WindDownProgress` | internal/scheduler/queue.go:288-299 | Until then some send, receive or release is possible: nothing blocks for ever |
| `SchedulerResults.BudgetAcrossRun` | internal/scheduler/rebalance.go:55-94 | In every state of a Mode C run the live tasks fit budget over split, so a rebalance gives each at least one and spends at most, or exactly, the budget |
| `SchedulerService.EnqueueExactly` | internal/scheduler/queue.go:343-359 | In every reachable state of a daemon a new task is appended to the queue if and only if no wind-down has begun and fewer than 128 wait; otherwise nothing changes and the refusal names the one of the two that holds |
| `SchedulerService.AdmitExactly` | internal/scheduler/queue.go:407-430 | In every reachable state an admission takes the first waiting task, with its connections, if and only if one waits and a slot is free |
| `SchedulerService.PlanIsStarted` | internal/scheduler/queue.go:132-150 | A one-shot Run whose tasks can be built has, once in its loop, started every parallel file and queued every waiting one, in the plan's order |
| `SchedulerService.LiveAsPlanned` | internal/scheduler/queue.go:278-286 | In every reachable state, rebalances aside, a live task of the plan has the connections the plan gives it |
| `SchedulerService.DaemonCanServeAll` | internal/scheduler/queue.go:198-221 | From every reachable state of a daemon before its wind-down, all it has accepted can be brought to one report each within a bounded number of steps, after which only the idle hold is left |
| `SchedulerService.OneShotCanServeAll` | internal/scheduler/queue.go:198-221 | The same for a one-shot Run in its loop with something live, reported or nothing waiting |
| `SchedulerService.CancelIsAnswered` | internal/scheduler/queue.go:173-234 | Once the context is cancelled Run can be brought to its return from every state of its loop |
| `SchedulerQueue.Scheduler.Enqueue` | internal/scheduler/queue.go:343-359 | Counted and appended, in one section, if and only if no wind-down has begun and fewer than 128 wait |
| `SchedulerQueue.Scheduler.AdmitNext` | internal/scheduler/queue.go:407-417 | Pop and slot in one section |
| `SchedulerQueue.Scheduler.AddCounter` | internal/scheduler/queue.go:251-260 | Refuses once winding down |
| `SchedulerQueue.Scheduler.ReleaseIdle` | internal/scheduler/queue.go:267-274 | The hold is dropped once |
| `SchedulerQueue.Scheduler.HandleComplete` | internal/scheduler/queue.go:315-329 | One tally per report; the last thousand reports are kept |
| `SchedulerQueue.Scheduler.WindDown` | internal/scheduler/queue.go:177-188 | The loop counts the reservations of the queue it drops |
| `SchedulerQueue.Scheduler.RebalanceLive` | internal/scheduler/rebalance.go:55-96 | Live counts become the targets, in id order; targets below one change nothing |
| `Pause.GateIsSafe` | internal/download/task_pause.go:40-82 | In every reachable state no channel was closed twice, and a sleeping worker waits on a closed channel or on the current one of a paused task |
| `Pause.AllGetThrough` | internal/download/task_pause.go:69-82 | Once unpaused every worker gets past the gate in at most two steps each |
| `Pause.PausedExactly` | internal/download/task_pause.go:40-55 | In every execution the task is paused if and only if the last call that paused or unpaused it was a pause |
| `Pause.UnpauseFreesAll` | internal/download/task_pause.go:46-82 | From every reachable state, after an unpause, every worker gets past the gate in at most two steps, wherever it was |
| `Pause.PauseGate.Unpause` | internal/download/task_pause.go:46-55 | Clears the flag; closes the open channel and installs a fresh one if and only if it was set |
| `RateAccess.AloneIsWhole` | internal/ratelimit/bucket.go:66-154 | The accesses of a call that nothing interrupts have the effect of the call |
| `RateAccess.RatesStayInSpan` | internal/ratelimit/bucket.go:66-154 | In every interleaving of the accesses of any calls the installed rate stays between the lowest and the highest rate ever set, the minimum included |
| `RateLimit.HalvesToTheFloor` | internal/ratelimit/bucket.go:66-84 | k back-offs leave cap over 2^k, at least the minimum |
| `RateLimit.CooldownHolds` | internal/ratelimit/bucket.go:88-99 | For 30 seconds after a back-off no success of any task undoes it |
| `RateLimit.BackOffRaisesExactly` | internal/ratelimit/bucket.go:74-80 | A back-off raises the rate exactly when it is positive and below 64 KiB/s |
| `RateLimit.RestoredExactly` | internal/ratelimit/bucket.go:88-108 | After a back-off the configured rate is restored exactly by a success 30 seconds later or more |
| `RateLimit.SetRateExactly` | internal/ratelimit/bucket.go:122-154 | A readable 64-bit rate becomes the installed and the configured one, zero or less is off, anything else changes nothing |
| `RateAccess.StaysHeldExactly` | internal/ratelimit/bucket.go:66-120 | In any state with the cap recorded and no rate change under way: the installed rate stays between the minimum and the cap in every continuation if and only if it does now, half the recorded rate is within the cap, and every rate in flight fits |
| `RateAccess.CapHonouredExactly` | internal/ratelimit/bucket.go:122-154 | A cap just set is honoured by every interleaving if and only if it is at least 64 KiB/s and every rate in flight is within it or bound for a detached bucket |
| `RateAccess.LoweredCapOverrun` | internal/ratelimit/bucket.go:101-120 | From a fresh limiter: a restore that has read the old cap carries it past every lower one |
| `RateAccess.StaysOffExactly` | internal/ratelimit/bucket.go:66-120 | In any state with no rate change under way: no limit comes back in any continuation if and only if none is installed and neither a new call nor one in flight would install one |
| `RateAccess.SwitchOffSurvivesExactly` | internal/ratelimit/bucket.go:122-129 | A switch-off survives if and only if no restore past its compare-and-swap and no back-off past its load is in flight (but for one whose only remaining effect is on a bucket no longer installed) |
| `RateAccess.SwitchOffUndone` | internal/ratelimit/bucket.go:66-107 | From a fresh limiter and for every cap but the minimum: both races undo it |
| `RateLimit.Bucket.BackOffSignal` | internal/ratelimit/bucket.go:66-84 | The method computes the back-off function and reports whether it changed the rate |
| `RateLimit.Bucket.SetRate` | internal/ratelimit/bucket.go:122-154 | Off, refusal and new rate |
| `DaemonHooks.HooksOnce` | internal/scheduler/daemon.go:49-82 | However a registration races with the end of the run, each hook is called once, after the end |

Other members are helpers. Among them are facts of one step kept for the reader: `Pause.PausedSleeps`,
`Pause.PauseGate.Look`, `RateLimit.RisesOnly`, `Connections.Counters.SetConns`.

## Left out

- HTTP, probing, redirects, TLS, proxies, mirrors: a reply is a nondeterministic status, declared start, body and ending; mirrors are assumed to serve the same content.
- ETags: whether both are known and differ is a free choice of each launch, and so is the answer of the sampled comparison with the server.
- Files without a known positive size that are resumed, or whose bodies end cleanly before their end: delivery can fail for them and no condition is given.
- A run that begins with a foreign control file: how it is prepared is stated, not what it delivers.
- A rebalance of tasks whose targets are not those of the rebalance before it: a task that was adjusted by hand, or the plan's own counts where it does not agree.
- Checksum flags, collision policies, file names, sinks, speed and ETA: display or flat decisions around the engine.
- The control file's JSON, fsync and rename: saving either replaces the record atomically or fails; control files without a digest for every completed chunk occur only as foreign ones, and the legacy fields are not modelled.
- The order of completed offsets in a control file: they are sets, because nothing reads the order.
- Retry back-off times and per-chunk timeouts: a timeout is a read error, a wait is a step not yet taken.
- The choice of chunks for the sampled comparison (CompletedSpans, resumeSampleSpans): only its answer matters here.
- Pausing inside the worker machine: a worker at the gate is one that is not scheduled; the gate itself is `Pause`.
- AdjustConns before the queues exist and between the last wait and the closing of adjustments: the retarget step exists only while a run is active.
- The per-server connection cap of the static profile: the branch is dead because that profile always uses HTTP/2.
- Int64: the resume spans, the balancer and the scheduler are not redone in 64 bits.
- Workers: the worker loop is a step relation rather than a class, because its correctness is about interleavings; the sequential parts of a task are the class `Tasks.Task`.
- Tasks.Task: represents the engine list by its two queues and takes the file and the control file as values.
- Tasks.CopyChunkFrom: takes the file as a value and the reads as a sequence of pieces.
- Tasks.VerifyResumedHashes: visits offsets in any order, so which difference is reported first is not modelled.
- SchedulerQueue.Scheduler.RebalanceLive: takes the live ids already sorted, and the effect on the tasks' own counters is `Connections`.
- Task construction failures in the scheduler are a free choice of each step; progress callbacks and the views of stopped tasks are not modelled beyond the bounded list.
- Balancer: warnings are values rather than text, and its numbers do not wrap.
- RateLimit: token timing and the parsing of rate strings are library behaviour; a bucket's limit and burst are one value, set in one access.
- RateAccess.SwitchOffSurvivesExactly: its three stores follow each other; accesses that come between them lead to states of which `RateAccess.StaysOffExactly` speaks. The same for `RateAccess.CapHonouredExactly` and `RateAccess.StaysHeldExactly`.
- DaemonHooks: starting, stopping and adding a URL delegate to the scheduler; only the hooks are modelled.
- User interface, RPC server, configuration, updates: wrappers with no property of their own.
