/**
 * The shapes of the collaborators the engine drives but whose sources are not
 * part of this model: downloader, processer, pipelines, plugins and the
 * configuration. Their behaviour enters the model only through these values.
 */
module Collaborators {
  import opened Wrappers
  import opened Util
  import opened Common

  /** A downloaded page. */
  datatype Response = Response(body: string)

  /** What the downloader returned: Go's `(resp, err)` pair; `err` is `err != nil`. */
  datatype Fetch = Fetch(resp: Option<Response>, err: bool)

  /** What one processer call discovered: new requests and extracted records, in yield order. */
  datatype Yield = Yield(requests: seq<Request>, items: seq<Items>)

  /**
   * The task-local oracle for one processed request: `download(k)` answers the
   * k-th downloader call of the task, `processer` fills a fresh yield from a response.
   */
  datatype Env = Env(download: nat -> Fetch, processer: Option<Response> -> Yield)

  /** The tunables the engine reads; the two sleep intervals are left out. */
  datatype Config = Config(concurrency: nat, maxRetryTimes: int)

  /** A record sink; `Console` is the default one the engine is built with. */
  datatype Pipeline = Console(splitter: string) | Sink(name: string)

  /** The four stages at which plugins run. */
  datatype PluginType = PreSchedulerType | PreDownloaderType | PreProcesserType | PrePipelineType

  /** A plugin: its identity and the stage it registers for. */
  datatype Plugin = Plugin(name: string, kind: PluginType)
}

/**
 * The pending-work queue. Its source is not part of this model; the engine
 * relies on this assumed contract: `Push` adds at the tail, `Poll` removes the head.
 */
module Scheduler {
  import opened Common

  type Queue = seq<Request>

  function Push(q: Queue, r: Request): (q': Queue)
    ensures |q'| == |q| + 1
    ensures q'[..|q|] == q && q'[|q|] == r
  {
    q + [r]
  }

  /** Polling an empty queue is a caller error; the engine checks `Count` first. */
  function Poll(q: Queue): (res: (Request, Queue))
    requires |q| > 0
    ensures [res.0] + res.1 == q
  {
    (q[0], q[1..])
  }

  function Count(q: Queue): nat
  {
    |q|
  }
}

/**
 * The non-blocking counting semaphore bounding concurrent tasks. Its source is
 * not part of this model; this is the assumed contract: `Alloc` succeeds iff
 * the count is below the limit, `Dealloc` decrements.
 */
module Resources {
  import opened Wrappers

  datatype ResourceManager = ResourceManager(limit: nat, count: nat)

  /** The in-flight count never exceeds the configured limit. */
  predicate Bounded(rm: ResourceManager)
  {
    rm.count <= rm.limit
  }

  function NewResourceManager(limit: nat): (rm: ResourceManager)
    ensures rm.limit == limit && rm.count == 0
  {
    ResourceManager(limit, 0)
  }

  /** Reserves one slot: `None` (and no effect) when none is free. */
  function Alloc(rm: ResourceManager): (r: Option<ResourceManager>)
    ensures r.Some? <==> rm.count < rm.limit
    ensures r.Some? ==> r.value.limit == rm.limit && r.value.count == rm.count + 1
    ensures Bounded(rm) && r.Some? ==> Bounded(r.value)
  {
    if rm.count < rm.limit then Some(rm.(count := rm.count + 1)) else None
  }

  /** Releases one slot; releasing without a matching `Alloc` is a caller error. */
  function Dealloc(rm: ResourceManager): (r: ResourceManager)
    requires rm.count > 0
    ensures r.limit == rm.limit && r.count == rm.count - 1
    ensures Bounded(rm) ==> Bounded(r)
  {
    rm.(count := rm.count - 1)
  }
}
