# goDataAccess crawl engine, modelled in Dafny

This project models the dispatch core of the goDataAccess crawler:

- the `Engine` of `src/spider/core/engine/engine.go`:
  - its builders (`NewEngine`, `SetStartUrl(s)`, `SetPipeline(s)`, `SetConfig`, `AddPlugin`);
  - one iteration of the `Start` poll loop;
  - the per-request `process` loop over pipelines;
  - the `retry` ledger keyed by URL fingerprint;
  - the plugin `hook`;
- the extracted record `Items` of `src/spider/util/items.go`;
- the work item `Request`. The engine builds it with `common.NewRequest` from its own `src/spider/common` package; that package is not part of this model, so `NewRequest` is modelled on `spider/common/request.go`, the constructor of the same name in the sibling tree.

Everything is immutable data plus pure functions:

- The engine is a datatype `Engine.Engine` holding the scheduler queue, the retry ledger, the resource manager, the tasks in flight, the plugins per stage, the pipelines, and a trace of events.
- The trace records every hook firing, push, dispatch, download, processer call and pipe call.
- Properties about order and completeness ("every discovered request is pushed, in yield order, each after its own pre-scheduler hook") are stated over this trace.
- `Trace.Summary` projects the trace onto pushes, dispatches, downloads, processed responses and piped records.

How concurrency is modelled:

- Each goroutine's work is one atomic step, `Machine.Next`:
  - `Loop` is one iteration of `Start`;
  - `Complete(i, env)` is the whole spawned task for the i-th request in flight: `process`, then `Dealloc`.
- `Machine.Inv` is the invariant every reachable state keeps:
  - one held resource per task in flight, never more than the limit;
  - every pushed request dispatched or still queued, in push order;
  - plugins filed under their own stage.

How collaborators are modelled:

- The scheduler, resource manager, downloader, processer, pipelines and plugins have no source here. They enter as assumed contracts (`Scheduler`, `Resources`) or as values.
- For a task, `Collaborators.Env` answers the k-th downloader call (`download(k)`) and maps a response to the requests and records the processer yields.
- `Fetch(resp, err)` is Go's `(resp, err)` pair.

Behaviour of the code worth knowing:

- **The ledger keeps entries after success.** A request that failed and later downloads successfully keeps its ledger entry. The code removes an entry only when the budget is exceeded (`Machine.LedgerOutlivesSuccess`).
- **One download per pipeline.** With N pipelines, `process` calls the downloader N times for the same request, and it can call `retry` once per pipeline (`Engine.Process`, `Machine.ProcessAllFailing`). With two or more pipelines this defeats the retry budget: see "## Findings".
- **Failed responses can reach the processer.** When `maxRetryTimes <= 0`, a failed download is still handed to the processer (`Engine.RunPipeProcesses`).

## Model

| member | source | states |
|---|---|---|
| Util.NewItems | src/spider/util/items.go:7-9 | a new record holds no key: every lookup yields its default and `GetAll` is empty |
| Util.Set | src/spider/util/items.go:11-13 | the key then reads back the stored value whatever the default; every other key reads as before; the key set grows by exactly that key |
| Util.Get | src/spider/util/items.go:15-20 | a key that was set yields its stored value, whatever default is passed; a key never set yields exactly the caller's default (an empty stored value is still returned, not replaced by the default) |
| Util.GetAll | src/spider/util/items.go:22-24 | the returned map agrees with `Get`: present keys give their value, absent keys the caller's default |
| Util.ReplayGet | src/spider/util/items.go:11-20 | after any sequence of writes, `Get` returns the last write to the key (an independent reference definition), else what it returned before |
| Util.ReplayKeys | src/spider/util/items.go:11-24 | from a new record, the keys of `GetAll` are exactly the keys some write named |
| Util.OverwriteWins | src/spider/util/items.go:11-13 | a second write to a key erases all trace of the first |
| Common.NewRequest | spider/common/request.go:16-29 | the URL is kept verbatim; a GET handle for it is prepared iff the URL starts with `http://`; proxy empty, no cookie jar |
| Common.HttpsHasNoHandle | spider/common/request.go:17 | an `https://` URL gets no prepared handle |
| Engine.NewEngine | src/spider/core/engine/engine.go:26-39 | the given task name and default configuration; empty queue, ledger and trace; no resource held, limit = configured concurrency; one console pipeline with a tab splitter; no plugin at any stage |
| Engine.AddPlugin | src/spider/core/engine/engine.go:172-175 | the plugin is appended to its own stage's list; every other stage and the rest of the engine are untouched |
| Engine.Enqueue | src/spider/core/engine/engine.go:43-44 | the queue gains exactly the request at its tail; the trace gains the pre-scheduler hook for it and then the push |
| Engine.EnqueueAll | src/spider/core/engine/engine.go:127-130 | the queue gains exactly the requests in order; the trace gains one hook-then-push block per request |
| Engine.SetStartUrl | src/spider/core/engine/engine.go:41-46 | one request for the URL is appended to the queue after its own hook; nothing else changes |
| Engine.SetStartUrls | src/spider/core/engine/engine.go:48-55 | the queue gains one request per URL in list order, the i-th for the i-th URL; the new events tally as exactly those pushes |
| Engine.SetPipelines | src/spider/core/engine/engine.go:72-75 | the pipeline list becomes exactly the given list (an empty list included) and nothing else in the engine changes |
| Engine.SetPipeline | src/spider/core/engine/engine.go:77-81 | whatever pipelines were set before, exactly one remains, the given one |
| Engine.SetConfig | src/spider/core/engine/engine.go:83-87 | the new configuration and a fresh resource manager with its concurrency as limit and nothing held |
| Engine.Retry | src/spider/core/engine/engine.go:140-153 | a fresh key counts 1, else one more; within the budget the count is stored and the request is re-queued after its hook; past it the entry is deleted and queue and trace are untouched; no other key changes; the queue gains exactly what `Requeued` says for the old ledger |
| Engine.IsDone | src/spider/core/engine/engine.go:155-157 | true iff the queue is empty and no resource is held |
| Engine.IsEmpty | src/spider/core/engine/engine.go:159-164 | true iff the queue is empty, whatever is in flight |
| Engine.Hook | src/spider/core/engine/engine.go:166-170 | the trace gains exactly one firing of every plugin registered for the stage, in order (none for a stage with no entry); nothing is pushed, dispatched, downloaded or piped, and nothing else in the engine changes |
| Engine.Tick | src/spider/core/engine/engine.go:89-111 | the loop stops iff queue empty and nothing held; idles iff queue empty with tasks in flight; is saturated iff work is queued but no slot is free; otherwise spawns a task for the queue head, taking one slot |
| Engine.RunPipe | src/spider/core/engine/engine.go:115-137 | one pipeline iteration downloads the request exactly once, dispatches nothing, and only appends to the trace and queue; a retried download moves the ledger by one `Bump` (one `retry`), any other leaves it alone; its new events tally exactly as the reference `IterTally`: a retry pushes only what `retry` re-queues, any other download is processed once, its discoveries pushed and its records piped to this pipeline; its new events are exactly `IterEvents`: the pre-downloader hook then the download, then either `retry`'s pre-scheduler hook and push (or nothing once the budget is spent), or the pre-processer hook, the processer call, a pre-scheduler hook before each discovered push, one pre-pipeline hook and the pipe calls |
| Engine.RunPipeRetries | src/spider/core/engine/engine.go:116-122 | a failed download with a positive budget does to ledger and queue exactly what `retry` does, and nothing is processed or piped |
| Engine.RunPipeProcesses | src/spider/core/engine/engine.go:123-136 | otherwise the response (even a failed one) is processed once, discoveries are pushed in yield order, and the iteration ends with one pre-pipeline hook for the batch then each record piped in order; the ledger is untouched |
| Engine.ProcessResponse | src/spider/core/engine/engine.go:124-136 | process, enqueue and deliver tally as exactly one processed response, the yielded pushes and the yielded records piped to this pipeline; the new events are exactly `ProcessEvents`: the pre-processer hook before the processer call, a pre-scheduler hook before each push in yield order, one pre-pipeline hook for the batch, then the pipe calls |
| Engine.Deliver | src/spider/core/engine/engine.go:132-136 | the trace gains one pre-pipeline hook firing with the whole batch, then one pipe call per record to this pipeline, in order; ledger, queue and setup are untouched |
| Engine.Process | src/spider/core/engine/engine.go:114-138 | `process` downloads the request once per pipeline and dispatches nothing; its new events tally exactly as the reference `LoopTally`, mixed runs included: only the iterations not retried process their response and pipe their records, each to its own pipeline, in order; the ledger moves by one `Bump` per retried download (`RetryCount`), so it is untouched when none retries and bumped once per pipeline when all do; its new events are exactly the reference `LoopEvents`, and every download, processer call and push in them is immediately preceded by one complete firing of its own stage's hook (`Trace.Announced`) |
| Engine.ProcessFrom | src/spider/core/engine/engine.go:115-137 | the pipeline loop from the k-th downloader call: one download per remaining pipeline; pushes, processed responses and piped records tally exactly as `LoopTally`, iteration by iteration against the ledger the earlier iterations left; the ledger ends `RetryCount` bumps further on; the new events are the iterations' `IterEvents` in order (`LoopEvents`) |
| Engine.Finish | src/spider/core/engine/engine.go:107-110 | a completing task releases exactly one slot and leaves the in-flight list, whatever its downloads did; everything else is what `process` did for that request: its new events are exactly `LoopEvents`, they tally as `LoopTally`, and the ledger ends `RetryCount` bumps further on |
| Trace.FiringsEach | src/spider/core/engine/engine.go:166-170 | `hook` runs every registered plugin once, in list order, at stage `t`, each handed `arg` (the stage is recorded in the trace; a plugin receives only the argument) |
| Trace.EnqueueEventsSummary | src/spider/core/engine/engine.go:127-130 | enqueueing a batch pushes exactly the batch, in order, and nothing else |
| Trace.EnqueueEventsSplit | src/spider/core/engine/engine.go:127-130 | every push is immediately preceded by one complete pre-scheduler hook for the same request |
| Engine.AnnouncedLoop | src/spider/core/engine/engine.go:114-138 | in the reference trace of the loop, every download follows a complete pre-downloader hook for the request, every processer call a complete pre-processer hook, and every push a complete pre-scheduler hook for the pushed request |
| Trace.AnnouncedAppend | src/spider/core/engine/engine.go:114-138 | two traces that each keep every stage event behind its hook still do when concatenated |
| Trace.PipeEventsSummary | src/spider/core/engine/engine.go:134-136 | every record is piped once, to the current pipeline, in yield order |
| Machine.NewEngineInv | src/spider/core/engine/engine.go:26-39 | a new engine satisfies the invariant |
| Machine.Next | src/spider/core/engine/engine.go:89-111 | every loop iteration and every task completion keeps the invariant |
| Machine.Run | src/spider/core/engine/engine.go:89-111 | every state reachable by any interleaving of loop iterations and completions keeps the invariant |
| Machine.StopIffQuiescent | src/spider/core/engine/engine.go:155-157 | the loop leaves iff `isDone`, which under the invariant is iff nothing is queued and no task is in flight |
| Machine.StopAllDispatched | src/spider/core/engine/engine.go:90-92 | when the loop leaves, every request ever pushed has been dispatched, in push order |
| Machine.TickTakesHead | src/spider/core/engine/engine.go:97-106 | a task is spawned iff work is queued and a slot is free; it takes the head; an iteration that spawns nothing changes nothing |
| Machine.CompleteReleases | src/spider/core/engine/engine.go:107-110 | a completion frees one slot, shortens the in-flight list by one, and keeps the invariant |
| Machine.SetStartUrlInv | src/spider/core/engine/engine.go:41-46 | seeding one URL keeps the invariant |
| Machine.SetStartUrlsInv | src/spider/core/engine/engine.go:48-55 | seeding a list of URLs keeps the invariant |
| Machine.AddPluginInv | src/spider/core/engine/engine.go:172-175 | registering a plugin keeps every plugin filed under its own stage |
| Machine.SetPipelineInv | src/spider/core/engine/engine.go:72-81 | replacing the pipelines keeps the invariant |
| Machine.SetConfigInv | src/spider/core/engine/engine.go:83-87 | a new configuration set before any task is in flight keeps the invariant |
| Machine.SinglePipelineDownloadsOnce | src/spider/core/engine/engine.go:77-81 | after `SetPipeline`, `process` downloads the request exactly once |
| Machine.RetriesWithinBudget | src/spider/core/engine/engine.go:140-149 | within the budget, n failures add exactly n to the key's count and re-queue the request n times; other keys are untouched |
| Machine.GiveUpAfterBudget | src/spider/core/engine/engine.go:140-153 | n consecutive `retry` calls for one key with no entry: the first `maxRetryTimes` re-queue the request, the next one gives up and leaves the ledger as it was before the first |
| Machine.RetriesBumps | src/spider/core/engine/engine.go:140-153 | `retry` reads only the ledger and the budget: n retries move the ledger as n `Bump`s |
| Machine.ProcessAllFailing | src/spider/core/engine/engine.go:114-153 | with a positive budget and every download failing, `process` leaves the ledger exactly as one consecutive `retry` call per pipeline does |
| Machine.LedgerOutlivesSuccess | src/spider/core/engine/engine.go:114-153 | after a failure and then a successful download, the entry for the key is still there, with count 1 |
| Machine.RegistrationOrder | src/spider/core/engine/engine.go:172-175 | after registering a list of plugins, a stage holds its old plugins followed by exactly the new plugins of that stage, in registration order (an independent reference definition) |
| Machine.EveryDispatchRequeues | src/spider/core/engine/engine.go:115-122 | as written, with two or more pipelines and a positive budget, a task whose first two downloads fail (in particular one whose downloads all fail) re-queues the request whatever the ledger holds |
| Machine.TwoPipelinesBudgetOne | src/spider/core/engine/engine.go:115-153 | as written, two pipelines, budget 1, no entry, both downloads failing: the ledger ends as it began and the request is re-queued once |
| Engine.ProcessUntilRetry | src/spider/core/engine/engine.go:115-137 | the corrected loop: its new events are exactly `UntilRetryEvents`, the iterations' `IterEvents` in order ending right after the first retried one, and it downloads `FirstRetry` times; so a task bumps the ledger at most once (exactly once iff some download retries) and a failing first download does exactly what one `retry` does |
| Engine.FirstRetryStops | src/spider/core/engine/engine.go:115-122 | under the corrected loop, when call j is the first retried downloader call, the loop makes exactly j - k + 1 calls |
| Engine.OnceStopsAtFirstRetry | src/spider/core/engine/engine.go:114-122 | a corrected task whose first retried download is the j-th downloads exactly j + 1 times: nothing is downloaded after the retry |
| Engine.ProcessOnce | src/spider/core/engine/engine.go:114-138 | `process` with the corrected loop: a task leaves the ledger alone or bumps it once, never more; a failing first download moves ledger and queue as one `retry`; its new events are exactly `UntilRetryEvents` and it downloads `FirstRetry` times |
| Engine.OnePipelineSame | src/spider/core/engine/engine.go:114-138 | with exactly one pipeline (the default) the corrected loop and the loop as written give the same engine, so every result about the corrected loop holds for `process` as written |
| Machine.RedispatchBumps | src/spider/core/engine/engine.go:140-153 | under the corrected loop, n tasks whose first download fails move the ledger by n `Bump`s |
| Machine.RedispatchQueue | src/spider/core/engine/engine.go:140-153 | under the corrected loop, n tasks whose first download fails push exactly what n consecutive `retry` calls push (`RequeuedRun`) |
| Machine.RetriesQueue | src/spider/core/engine/engine.go:140-153 | n consecutive `retry` calls push exactly `RequeuedRun`, computed from the ledger alone |
| Machine.OnceGivesUpAfterBudget | src/spider/core/engine/engine.go:140-153 | under the corrected loop the budget holds per dispatch: a request whose first download always fails is re-queued by exactly `maxRetryTimes` tasks, the next drops it, and the ledger ends as it began |
| Machine.HookRunsRegistered | src/spider/core/engine/engine.go:166-175 | on a new engine given plugins, `hook(t, arg)` runs exactly the plugins registered for `t`, once each, in registration order, and none of another stage |

## Findings

| source | as written | input that shows it | evidently intended | confidence | as-written member | corrected member |
|---|---|---|---|---|---|---|
| src/spider/core/engine/engine.go:115-122 | every pipeline iteration calls `retry` on a failed download and `continue`s to the next pipeline, so one task calls `retry` once per pipeline; a give-up (line 151) deletes the entry mid-task and the next failure restarts the count at 1 (line 145) and re-queues | two pipelines, `maxRetryTimes` = 1, no ledger entry, every download failing: each task re-queues the request and leaves the ledger as it found it, so the queue never empties and `Start` never reaches `isDone` | a failed download ends the task's work on the request, so the budget of `maxRetryTimes` re-queues holds per dispatch | high (not executed) | Machine.EveryDispatchRequeues, Machine.TwoPipelinesBudgetOne | Engine.ProcessUntilRetry, Machine.OnceGivesUpAfterBudget |

With one pipeline both loops give the same engine (`Engine.OnePipelineSame`), so the corrected-loop results cover the default configuration. The step relation `Machine.Next` keeps the loop as written, so the invariants of `Machine.Inv` are about the code as it stands; the corrected loop is `Engine.ProcessOnce`, run repeatedly by `Machine.Redispatch`.

## Left out

- Goroutines and their interleaving: each spawned task is one atomic step. The retry ledger is written by concurrent tasks without synchronisation; that race is not modelled.
- The two `time.Sleep` calls in `Start` (wait and polling intervals): time is not modelled. The configuration keeps only concurrency and the retry budget.
- The `src/spider/common` package, whose `NewRequest` the engine imports, is not part of this model. `Common.NewRequest` follows `spider/common/request.go` instead; where the two differ, the engine's own constructor is not modelled.
- The md5 fingerprint: the ledger is keyed by the URL itself, an injective stand-in. md5 collisions are not modelled.
- Scheduler, resource manager, downloader, processer, pipeline and plugin implementations are not part of this model:
  - the scheduler is a FIFO queue;
  - `Alloc` succeeds iff the count is below the limit;
  - downloads and processer yields are values given per task;
  - a plugin's `Do` and a pipeline's `Pipe` are recorded in the trace, not executed.
- Plugins that modify the request or records they are handed are not modelled: hooks only observe.
- `SetScheduler`, `SetDownloader` and `SetProcesser` swap collaborator implementations, which the model takes as given values. They are left out.
- The other files of the repository (the extractor, the file pipeline, the agent, the examples) are not part of this model.
- A negative concurrency setting: the limit is a natural number.
- Common.NewRequest: Go's `http.NewRequest` can fail on a malformed `http://` URL and leave the handle nil. The model assumes every `http://` URL yields a GET handle.
- Engine.SetPipelines: Go stores the caller's slice, and `SetPipeline` truncates it with `[:0]` and appends into the same backing array, so a later `SetPipeline(p)` overwrites the caller's first element. The model stores values, so this aliasing is not modelled.
- Util.GetAll: Go returns the live map, so a caller's later writes through it change the record. The model returns a value.
- Machine.SetConfigInv: requires that no task is in flight. The source resets the held count even while tasks run, and their later `Dealloc` would take it below zero. The model treats `SetConfig` as a pre-`Start` call.
