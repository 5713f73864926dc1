/**
 * The dispatch engine (src/spider/core/engine/engine.go) as a sequential
 * state machine. Each goroutine's work is one atomic step: a loop tick
 * (`Tick`) or the completion of one spawned task (`Finish`).
 */
module Engine {
  import opened Wrappers
  import opened Util
  import opened Common
  import opened Collaborators
  import opened Trace
  import Scheduler
  import Resources

  /**
   * Retry-ledger key. The source keys by the md5 digest of the URL; the model
   * keys by the URL itself, an injective stand-in for the digest.
   */
  type Fingerprint = string

  function Key(req: Request): Fingerprint
  {
    req.url
  }

  /**
   * The engine's state: scheduler queue, retry ledger (`retryCache`), resource
   * manager, the requests whose task is still in flight, registered plugins
   * per stage, pipelines, and the trace of what happened so far.
   */
  datatype Engine = Engine(
    taskName: string,
    config: Config,
    queue: Scheduler.Queue,
    ledger: map<Fingerprint, int>,
    rm: Resources.ResourceManager,
    running: seq<Request>,
    plugins: map<PluginType, seq<Plugin>>,
    pipelines: seq<Pipeline>,
    log: seq<Event>)

  /** Everything but the queue, the ledger and the trace is unchanged. */
  predicate SameSetup(e: Engine, e': Engine)
  {
    && e'.taskName == e.taskName
    && e'.config == e.config
    && e'.rm == e.rm
    && e'.running == e.running
    && e'.plugins == e.plugins
    && e'.pipelines == e.pipelines
  }

  /** The events appended since `e`. */
  function NewEvents(e: Engine, e': Engine): seq<Event>
    requires |e.log| <= |e'.log|
  {
    e'.log[|e.log|..]
  }

  /**
   * `e'` continues `e`: the trace only grew, the queue grew by exactly the
   * requests the new events pushed, in order, and nothing was dispatched.
   */
  predicate Extends(e: Engine, e': Engine)
  {
    && |e.log| <= |e'.log| && e'.log[..|e.log|] == e.log
    && e'.queue == e.queue + Summary(NewEvents(e, e')).pushed
    && Summary(NewEvents(e, e')).dispatched == []
  }

  lemma LogTrans(a: Engine, b: Engine, c: Engine)
    requires |a.log| <= |b.log| && b.log[..|a.log|] == a.log
    requires |b.log| <= |c.log| && c.log[..|b.log|] == b.log
    ensures |a.log| <= |c.log| && c.log[..|a.log|] == a.log
    ensures NewEvents(a, c) == NewEvents(a, b) + NewEvents(b, c)
  {
    var ab, bc := NewEvents(a, b), NewEvents(b, c);
    assert b.log == a.log + ab;
    assert c.log == b.log + bc;
    assert c.log == a.log + (ab + bc);
  }

  lemma QueueTrans(qa: Scheduler.Queue, qb: Scheduler.Queue, qc: Scheduler.Queue, s1: Tally, s2: Tally)
    requires qb == qa + s1.pushed && qc == qb + s2.pushed
    requires s1.dispatched == [] && s2.dispatched == []
    ensures qc == qa + Plus(s1, s2).pushed && Plus(s1, s2).dispatched == []
  {
  }

  /** `Extends` composes, and the new events of the composite tally as the sum of the parts. */
  lemma ExtendsTrans(a: Engine, b: Engine, c: Engine)
    requires Extends(a, b) && Extends(b, c)
    ensures Extends(a, c)
    ensures NewEvents(a, c) == NewEvents(a, b) + NewEvents(b, c)
    ensures Summary(NewEvents(a, c)) == Plus(Summary(NewEvents(a, b)), Summary(NewEvents(b, c)))
  {
    LogTrans(a, b, c);
    SummaryAppend(NewEvents(a, b), NewEvents(b, c));
    QueueTrans(a.queue, b.queue, c.queue, Summary(NewEvents(a, b)), Summary(NewEvents(b, c)));
  }

  /** Every engine continues itself, with no new events. */
  lemma ExtendsRefl(e: Engine)
    ensures Extends(e, e) && NewEvents(e, e) == [] && Summary(NewEvents(e, e)) == Nothing
  {
    assert e.log[|e.log|..] == [];
    assert e.queue + [] == e.queue;
  }

  /** Appending `evs` to the trace and the pushes of `evs` to the queue. */
  lemma ExtendsByAppend(e: Engine, e': Engine, evs: seq<Event>)
    requires e'.log == e.log + evs && e'.queue == e.queue + Summary(evs).pushed
    requires Summary(evs).dispatched == []
    ensures Extends(e, e') && NewEvents(e, e') == evs
  {
    assert e'.log[..|e.log|] == e.log;
    assert e'.log[|e.log|..] == evs;
  }

  /** Appending `evs` to the trace makes `evs` the new events. */
  lemma NewEventsAppend(e: Engine, e': Engine, evs: seq<Event>)
    requires e'.log == e.log + evs
    ensures |e.log| <= |e'.log| && NewEvents(e, e') == evs
  {
    assert e'.log[|e.log|..] == evs;
  }

  /** `NewEngine(taskName)` with the default configuration passed in explicitly. */
  function NewEngine(taskName: string, defaults: Config): (e: Engine)
    ensures e.taskName == taskName && e.config == defaults
    ensures e.queue == [] && e.ledger == map[] && e.running == [] && e.log == []
    ensures e.rm.count == 0 && e.rm.limit == defaults.concurrency
    ensures e.pipelines == [Console("\t")]
    ensures forall t :: Stage(e.plugins, t) == []
  {
    Engine(taskName, defaults, [], map[], Resources.NewResourceManager(defaults.concurrency),
           [], map[], [Console("\t")], [])
  }

  /** Registers `p` at the end of its own stage's list; other stages are untouched. */
  function AddPlugin(e: Engine, p: Plugin): (e': Engine)
    ensures Stage(e'.plugins, p.kind) == Stage(e.plugins, p.kind) + [p]
    ensures forall t :: t != p.kind ==> Stage(e'.plugins, t) == Stage(e.plugins, t)
    ensures e' == e.(plugins := e'.plugins)
  {
    e.(plugins := e.plugins[p.kind := Stage(e.plugins, p.kind) + [p]])
  }

  /** `hook(t, arg)`: every plugin registered for `t` runs once, in order. */
  function Hook(e: Engine, t: PluginType, arg: HookArg): (e': Engine)
    ensures e'.log == e.log + HookOf(e.plugins, t, arg)
    ensures e' == e.(log := e'.log)
    ensures Extends(e, e') && Summary(NewEvents(e, e')) == Nothing
  {
    var e' := e.(log := e.log + HookOf(e.plugins, t, arg));
    FiringsSummary(Stage(e.plugins, t), t, arg);
    ExtendsByAppend(e, e', HookOf(e.plugins, t, arg));
    e'
  }

  /** The pre-scheduler hook for `r`, then `scheduler.Push(r)`. */
  function Enqueue(e: Engine, r: Request): (e': Engine)
    ensures e'.queue == e.queue + [r]
    ensures e'.log == e.log + EnqueueBlock(Stage(e.plugins, PreSchedulerType), r)
    ensures e'.ledger == e.ledger && SameSetup(e, e')
  {
    var h := Hook(e, PreSchedulerType, OnRequest(r));
    h.(queue := Scheduler.Push(h.queue, r), log := h.log + [Pushed(r)])
  }

  /** `Enqueue` for each request of `rs`, in order. */
  function EnqueueAll(e: Engine, rs: seq<Request>): (e': Engine)
    ensures e'.queue == e.queue + rs
    ensures e'.log == e.log + EnqueueEvents(Stage(e.plugins, PreSchedulerType), rs)
    ensures e'.ledger == e.ledger && SameSetup(e, e')
    decreases |rs|
  {
    if rs == [] then e
    else
      var e1 := Enqueue(e, rs[0]);
      var e' := EnqueueAll(e1, rs[1..]);
      EnqueueStep(e, e1, e', rs);
      e'
  }

  lemma EnqueueStep(e: Engine, e1: Engine, e2: Engine, rs: seq<Request>)
    requires rs != []
    requires e1.queue == e.queue + [rs[0]] && e1.log == e.log + EnqueueBlock(Stage(e.plugins, PreSchedulerType), rs[0])
    requires e1.ledger == e.ledger && SameSetup(e, e1)
    requires e2.queue == e1.queue + rs[1..] && e2.log == e1.log + EnqueueEvents(Stage(e1.plugins, PreSchedulerType), rs[1..])
    requires e2.ledger == e1.ledger && SameSetup(e1, e2)
    ensures e2.queue == e.queue + rs
    ensures e2.log == e.log + EnqueueEvents(Stage(e.plugins, PreSchedulerType), rs)
    ensures e2.ledger == e.ledger && SameSetup(e, e2)
  {
    var ps := Stage(e.plugins, PreSchedulerType);
    assert Stage(e1.plugins, PreSchedulerType) == ps;
    assert EnqueueEvents(ps, rs) == EnqueueBlock(ps, rs[0]) + EnqueueEvents(ps, rs[1..]);
    AppendAssoc(e.log, EnqueueBlock(ps, rs[0]), EnqueueEvents(ps, rs[1..]));
    AppendAssoc(e.queue, [rs[0]], rs[1..]);
    assert [rs[0]] + rs[1..] == rs;
  }

  /** `SetStartUrl`: one seed, hooked and pushed. */
  function SetStartUrl(e: Engine, url: string): (e': Engine)
    ensures |e'.queue| == |e.queue| + 1 && e'.queue[..|e.queue|] == e.queue
    ensures e'.queue[|e.queue|] == NewRequest(url) && e'.queue[|e.queue|].url == url
    ensures e'.log == e.log + EnqueueBlock(Stage(e.plugins, PreSchedulerType), NewRequest(url))
    ensures e'.ledger == e.ledger && SameSetup(e, e')
  {
    Enqueue(e, NewRequest(url))
  }

  /** One seed request per URL, in list order. */
  function Seeds(urls: seq<string>): (rs: seq<Request>)
    ensures |rs| == |urls|
    ensures forall i :: 0 <= i < |urls| ==> rs[i] == NewRequest(urls[i])
  {
    seq(|urls|, i requires 0 <= i < |urls| => NewRequest(urls[i]))
  }

  /** `SetStartUrls`: the seeds are pushed in list order, each after its own pre-scheduler hook. */
  function SetStartUrls(e: Engine, urls: seq<string>): (e': Engine)
    ensures |e'.queue| == |e.queue| + |urls| && e'.queue[..|e.queue|] == e.queue
    ensures forall i :: 0 <= i < |urls| ==> e'.queue[|e.queue| + i].url == urls[i]
    ensures e'.log == e.log + EnqueueEvents(Stage(e.plugins, PreSchedulerType), Seeds(urls))
    ensures Extends(e, e') && Summary(NewEvents(e, e')) == Nothing.(pushed := Seeds(urls))
    ensures e'.ledger == e.ledger && SameSetup(e, e')
  {
    var e' := EnqueueAll(e, Seeds(urls));
    EnqueueAllExtends(e, Seeds(urls));
    SeedsQueue(e.queue, urls);
    e'
  }

  /** Appending the seeds keeps the old queue as a prefix and puts the i-th URL's request at offset i. */
  lemma SeedsQueue(q: seq<Request>, urls: seq<string>)
    ensures |q + Seeds(urls)| == |q| + |urls| && (q + Seeds(urls))[..|q|] == q
    ensures forall i :: 0 <= i < |urls| ==> (q + Seeds(urls))[|q| + i].url == urls[i]
  {
    var rs := Seeds(urls);
    assert forall i :: 0 <= i < |urls| ==> (q + rs)[|q| + i] == rs[i];
  }

  /** `SetPipelines`: the pipeline list is replaced wholesale. */
  function SetPipelines(e: Engine, ps: seq<Pipeline>): (e': Engine)
    ensures e'.pipelines == ps
    ensures e' == e.(pipelines := e'.pipelines)
  {
    e.(pipelines := ps)
  }

  /** `SetPipeline`: truncate to empty, then append, leaving exactly `p`. */
  function SetPipeline(e: Engine, p: Pipeline): (e': Engine)
    ensures |e'.pipelines| == 1 && e'.pipelines[0] == p
    ensures e' == e.(pipelines := e'.pipelines)
  {
    var cleared := e.pipelines[..0];
    e.(pipelines := cleared + [p])
  }

  /** `SetConfig`: a new configuration and a fresh resource manager with its limit. */
  function SetConfig(e: Engine, c: Config): (e': Engine)
    ensures e'.config == c && e'.rm.limit == c.concurrency && e'.rm.count == 0
    ensures e' == e.(config := c, rm := e'.rm)
  {
    e.(config := c, rm := Resources.NewResourceManager(c.concurrency))
  }

  /** How many failures the ledger has recorded for `d` (0 when no entry). */
  function Attempts(e: Engine, d: Fingerprint): int
  {
    if d in e.ledger then e.ledger[d] else 0
  }

  /**
   * The ledger after one more failure of key `h` under budget `max`: the count
   * goes up by one (a fresh entry starts at 1) and the entry is dropped once
   * it exceeds the budget.
   */
  function Bump(ledger: map<Fingerprint, int>, h: Fingerprint, max: int): map<Fingerprint, int>
  {
    var n := (if h in ledger then ledger[h] else 0) + 1;
    if n <= max then ledger[h := n] else ledger - {h}
  }

  /**
   * What `retry` pushes for one more failure of `req` against `ledger`: the
   * request itself when the bumped count stays within the budget, else nothing.
   */
  function Requeued(ledger: map<Fingerprint, int>, req: Request, max: int): seq<Request>
  {
    if Key(req) in Bump(ledger, Key(req), max) then [req] else []
  }

  /** The events of `retry` for `req` against `ledger`: its hook and push when it re-queues, else none. */
  function RetryEvents(plugins: map<PluginType, seq<Plugin>>, ledger: map<Fingerprint, int>, req: Request, max: int): seq<Event>
  {
    if Requeued(ledger, req, max) == [] then [] else EnqueueBlock(Stage(plugins, PreSchedulerType), req)
  }

  /**
   * `retry(req)`: record one more failure for the request's key (a fresh entry
   * starts at 1); while the count is within `maxRetryTimes` re-enqueue it
   * (hook, then push), otherwise give up and delete the entry.
   */
  function Retry(e: Engine, req: Request): (e': Engine)
    ensures SameSetup(e, e') && e'.ledger == Bump(e.ledger, Key(req), e.config.maxRetryTimes)
    ensures e'.queue == e.queue + Requeued(e.ledger, req, e.config.maxRetryTimes)
    ensures e'.ledger - {Key(req)} == e.ledger - {Key(req)}
    ensures var n := Attempts(e, Key(req)) + 1;
      && (Key(req) !in e.ledger ==> n == 1)
      && (n <= e.config.maxRetryTimes ==>
            && Key(req) in e'.ledger && e'.ledger[Key(req)] == n
            && e'.queue == e.queue + [req]
            && e'.log == e.log + EnqueueBlock(Stage(e.plugins, PreSchedulerType), req))
      && (n > e.config.maxRetryTimes ==>
            && Key(req) !in e'.ledger
            && e'.queue == e.queue && e'.log == e.log)
  {
    var h := Key(req);
    var n := if h in e.ledger then e.ledger[h] + 1 else 1;
    if n <= e.config.maxRetryTimes then
      Enqueue(e.(ledger := e.ledger[h := n]), req)
    else
      e.(ledger := e.ledger - {h})
  }

  /** What `retry` appends to the trace is exactly `RetryEvents` for the old ledger. */
  lemma RetryTrace(e: Engine, req: Request)
    ensures Retry(e, req).log == e.log + RetryEvents(e.plugins, e.ledger, req, e.config.maxRetryTimes)
  {
  }

  /** `isDone`: the scheduler is empty and no resource is held. */
  function IsDone(e: Engine): (b: bool)
    ensures b <==> e.queue == [] && e.rm.count == 0
  {
    Scheduler.Count(e.queue) == 0 && e.rm.count == 0
  }

  /** `isEmpty`: the scheduler holds no request. */
  function IsEmpty(e: Engine): (b: bool)
    ensures b <==> e.queue == []
  {
    Scheduler.Count(e.queue) == 0
  }

  /**
   * The outcome of one iteration of the `Start` loop: leave the loop, go round
   * again with nothing to do or no free slot, or spawn a task.
   */
  datatype TickResult = Stop | Idle | Saturated | Spawned(next: Engine)

  /**
   * One iteration of `Start`. The loop stops exactly when `isDone`; a task is
   * spawned exactly when the queue is non-empty and `Alloc` succeeds, and it
   * takes the head of the queue; otherwise nothing changes.
   */
  function Tick(e: Engine): (t: TickResult)
    ensures t.Stop? <==> e.queue == [] && e.rm.count == 0
    ensures t.Idle? <==> e.queue == [] && e.rm.count > 0
    ensures t.Saturated? <==> e.queue != [] && e.rm.count >= e.rm.limit
    ensures t.Spawned? ==>
      && e.queue != [] && e.rm.count < e.rm.limit
      && t.next.queue == e.queue[1..]
      && t.next.running == e.running + [e.queue[0]]
      && t.next.rm.count == e.rm.count + 1 && t.next.rm.limit == e.rm.limit
      && t.next.log == e.log + [Dispatched(e.queue[0])]
      && t.next == e.(queue := t.next.queue, rm := t.next.rm, running := t.next.running, log := t.next.log)
  {
    if IsDone(e) then Stop
    else if IsEmpty(e) then Idle
    else
      match Resources.Alloc(e.rm)
      case None => Saturated
      case Some(rm') =>
        var (req, rest) := Scheduler.Poll(e.queue);
        Spawned(e.(queue := rest, rm := rm', running := e.running + [req], log := e.log + [Dispatched(req)]))
  }

  /** Whether a download with outcome `fetch` goes to `retry` under retry budget `max`. */
  predicate RetriedUnder(max: int, fetch: Fetch)
  {
    fetch.err && max > 0
  }

  /**
   * Reference tally of one pipeline iteration against `ledger`: a retried
   * download pushes what `retry` re-queues and nothing else; any other
   * download is processed once, its discoveries are pushed in yield order
   * and its records are piped to `pipe` in order.
   */
  function IterTally(ledger: map<Fingerprint, int>, req: Request, max: int, pipe: Pipeline, fetch: Fetch,
                     processer: Option<Response> -> Yield): Tally
  {
    if RetriedUnder(max, fetch) then
      Nothing.(pushed := Requeued(ledger, req, max), downloaded := [req])
    else
      var y := processer(fetch.resp);
      Nothing.(pushed := y.requests, downloaded := [req], processed := [fetch.resp],
               piped := Deliveries(pipe, y.items))
  }

  /** The ledger after one pipeline iteration: bumped when the download is retried. */
  function LedgerAfter(ledger: map<Fingerprint, int>, req: Request, max: int, fetch: Fetch): map<Fingerprint, int>
  {
    if RetriedUnder(max, fetch) then Bump(ledger, Key(req), max) else ledger
  }

  /**
   * Reference tally of the pipeline loop over `pipes` from the k-th downloader
   * call: the iterations' tallies in order, each against the ledger the
   * earlier iterations left. Only the iterations that are not retried process
   * a response and pipe records, each to its own pipeline.
   */
  function LoopTally(ledger: map<Fingerprint, int>, req: Request, max: int, env: Env, pipes: seq<Pipeline>, k: nat): Tally
    decreases |pipes|
  {
    if pipes == [] then Nothing
    else Plus(IterTally(ledger, req, max, pipes[0], env.download(k), env.processer),
              LoopTally(LedgerAfter(ledger, req, max, env.download(k)), req, max, env, pipes[1..], k + 1))
  }

  /**
   * Reference trace of one pipeline iteration against `ledger`: the
   * pre-downloader hook and the download; then, for a retried download, what
   * `retry` appends (its pre-scheduler hook and push, or nothing once the
   * budget is spent); otherwise the processing trace `ProcessEvents`.
   */
  function IterEvents(plugins: map<PluginType, seq<Plugin>>, ledger: map<Fingerprint, int>, req: Request, max: int,
                      pipe: Pipeline, fetch: Fetch, processer: Option<Response> -> Yield): seq<Event>
  {
    (HookOf(plugins, PreDownloaderType, OnRequest(req)) + [Downloaded(req)])
    + (if RetriedUnder(max, fetch) then RetryEvents(plugins, ledger, req, max)
       else ProcessEvents(plugins, req, pipe, fetch.resp, processer))
  }

  /** Reference trace of the pipeline loop over `pipes` from the k-th downloader call. */
  function LoopEvents(plugins: map<PluginType, seq<Plugin>>, ledger: map<Fingerprint, int>, req: Request, max: int,
                      env: Env, pipes: seq<Pipeline>, k: nat): seq<Event>
    decreases |pipes|
  {
    if pipes == [] then []
    else IterEvents(plugins, ledger, req, max, pipes[0], env.download(k), env.processer)
         + LoopEvents(plugins, LedgerAfter(ledger, req, max, env.download(k)), req, max, env, pipes[1..], k + 1)
  }

  /** Every download, processer call and push of one iteration follows its stage's complete hook. */
  lemma AnnouncedIter(plugins: map<PluginType, seq<Plugin>>, ledger: map<Fingerprint, int>, req: Request, max: int,
                      pipe: Pipeline, fetch: Fetch, processer: Option<Response> -> Yield)
    ensures Announced(plugins, req, IterEvents(plugins, ledger, req, max, pipe, fetch, processer))
  {
    var d := HookOf(plugins, PreDownloaderType, OnRequest(req));
    assert (d + [Downloaded(req)])[..|d|] == d;
    AnnouncedBlock(plugins, req, PreDownloaderType, OnRequest(req), Downloaded(req));
    var rest := if RetriedUnder(max, fetch) then RetryEvents(plugins, ledger, req, max)
                else ProcessEvents(plugins, req, pipe, fetch.resp, processer);
    if RetriedUnder(max, fetch) {
      AnnouncedRetry(plugins, ledger, req, max);
    } else {
      AnnouncedProcess(plugins, req, pipe, fetch.resp, processer);
    }
    AnnouncedAppend(plugins, req, d + [Downloaded(req)], rest);
  }

  lemma AnnouncedRetry(plugins: map<PluginType, seq<Plugin>>, ledger: map<Fingerprint, int>, req: Request, max: int)
    ensures Announced(plugins, req, RetryEvents(plugins, ledger, req, max))
  {
    if Requeued(ledger, req, max) != [] {
      var h := HookOf(plugins, PreSchedulerType, OnRequest(req));
      assert (h + [Pushed(req)])[..|h|] == h;
      AnnouncedBlock(plugins, req, PreSchedulerType, OnRequest(req), Pushed(req));
    }
  }

  lemma AnnouncedProcess(plugins: map<PluginType, seq<Plugin>>, req: Request, pipe: Pipeline, resp: Option<Response>,
                         processer: Option<Response> -> Yield)
    ensures Announced(plugins, req, ProcessEvents(plugins, req, pipe, resp, processer))
  {
    var y := processer(resp);
    var h := HookOf(plugins, PreProcesserType, OnRequest(req));
    var a := h + [Processed(resp)];
    var b := EnqueueEvents(Stage(plugins, PreSchedulerType), y.requests);
    var c := HookOf(plugins, PrePipelineType, OnItems(y.items));
    var d := PipeEvents(pipe, y.items);
    assert a[..|h|] == h;
    AnnouncedBlock(plugins, req, PreProcesserType, OnRequest(req), Processed(resp));
    AnnouncedEnqueue(plugins, req, y.requests);
    AnnouncedAppend(plugins, req, a, b);
    AnnouncedFirings(plugins, req, Stage(plugins, PrePipelineType), PrePipelineType, OnItems(y.items));
    AnnouncedPipe(plugins, req, pipe, y.items);
    AnnouncedAppend(plugins, req, c, d);
    AnnouncedAppend(plugins, req, a + b, c + d);
  }

  /** The whole loop's trace: every stage event follows one complete firing of its stage's hook. */
  lemma {:induction false} AnnouncedLoop(plugins: map<PluginType, seq<Plugin>>, ledger: map<Fingerprint, int>, req: Request,
                                         max: int, env: Env, pipes: seq<Pipeline>, k: nat)
    ensures Announced(plugins, req, LoopEvents(plugins, ledger, req, max, env, pipes, k))
    decreases |pipes|
  {
    if pipes == [] {
      assert LoopEvents(plugins, ledger, req, max, env, pipes, k) == [];
    } else {
      var l1 := LedgerAfter(ledger, req, max, env.download(k));
      AnnouncedIter(plugins, ledger, req, max, pipes[0], env.download(k), env.processer);
      AnnouncedLoop(plugins, l1, req, max, env, pipes[1..], k + 1);
      AnnouncedAppend(plugins, req, IterEvents(plugins, ledger, req, max, pipes[0], env.download(k), env.processer),
                      LoopEvents(plugins, l1, req, max, env, pipes[1..], k + 1));
    }
  }

  /** How many of the downloader calls made by the loop over `pipes` from call `k` are retried. */
  function RetryCount(max: int, env: Env, pipes: seq<Pipeline>, k: nat): nat
    decreases |pipes|
  {
    if pipes == [] then 0
    else (if RetriedUnder(max, env.download(k)) then 1 else 0) + RetryCount(max, env, pipes[1..], k + 1)
  }

  /** `retry` only appends its own hook-and-push (or nothing) and tallies as at most that push. */
  lemma RetryExtends(e: Engine, req: Request)
    ensures Extends(e, Retry(e, req))
    ensures Summary(NewEvents(e, Retry(e, req))) == Nothing.(pushed := Retry(e, req).queue[|e.queue|..])
  {
    var e' := Retry(e, req);
    if Attempts(e, Key(req)) + 1 <= e.config.maxRetryTimes {
      var blk := EnqueueBlock(Stage(e.plugins, PreSchedulerType), req);
      HookThen(Stage(e.plugins, PreSchedulerType), PreSchedulerType, OnRequest(req), Pushed(req));
      ExtendsByAppend(e, e', blk);
      assert e'.queue[|e.queue|..] == [req];
    } else {
      assert e'.log == e.log + [];
      ExtendsByAppend(e, e', []);
      assert e'.queue[|e.queue|..] == [];
    }
  }

  /** `log` ends with the events `tail`. */
  predicate EndsWith(log: seq<Event>, tail: seq<Event>)
  {
    |tail| <= |log| && log[|log| - |tail|..] == tail
  }

  /** A hook for stage `t` followed by one event that is neither a push nor a dispatch. */
  function Announce(e: Engine, t: PluginType, arg: HookArg, ev: Event): (e': Engine)
    requires !ev.Pushed? && !ev.Dispatched?
    ensures e'.log == e.log + HookOf(e.plugins, t, arg) + [ev]
    ensures SameSetup(e, e') && e'.ledger == e.ledger && Extends(e, e')
    ensures NewEvents(e, e') == HookOf(e.plugins, t, arg) + [ev]
    ensures Summary(NewEvents(e, e')) == TallyOf(ev)
  {
    var evs := HookOf(e.plugins, t, arg) + [ev];
    var e' := e.(log := e.log + evs);
    HookThen(Stage(e.plugins, t), t, arg, ev);
    assert e.queue + [] == e.queue;
    ExtendsByAppend(e, e', evs);
    e'
  }

  /** `hook(PrePipelineType, items)` once, then `pipe.Pipe(i)` for every record in order. */
  function Deliver(e: Engine, pipe: Pipeline, items: seq<Items>): (e': Engine)
    ensures e'.log == e.log + (HookOf(e.plugins, PrePipelineType, OnItems(items)) + PipeEvents(pipe, items))
    ensures SameSetup(e, e') && e'.ledger == e.ledger && Extends(e, e')
    ensures Summary(NewEvents(e, e')) == Nothing.(piped := Deliveries(pipe, items))
  {
    var hook := HookOf(e.plugins, PrePipelineType, OnItems(items));
    var e' := e.(log := e.log + (hook + PipeEvents(pipe, items)));
    FiringsSummary(Stage(e.plugins, PrePipelineType), PrePipelineType, OnItems(items));
    PipeEventsSummary(pipe, items);
    SummaryAppend(hook, PipeEvents(pipe, items));
    PlusNothing(Summary(PipeEvents(pipe, items)));
    assert e.queue + [] == e.queue;
    ExtendsByAppend(e, e', hook + PipeEvents(pipe, items));
    e'
  }

  /** `EnqueueAll` as a continuation that tallies as exactly its pushes. */
  lemma EnqueueAllExtends(e: Engine, rs: seq<Request>)
    ensures Extends(e, EnqueueAll(e, rs))
    ensures NewEvents(e, EnqueueAll(e, rs)) == EnqueueEvents(Stage(e.plugins, PreSchedulerType), rs)
    ensures Summary(NewEvents(e, EnqueueAll(e, rs))) == Nothing.(pushed := rs)
  {
    EnqueueEventsSummary(Stage(e.plugins, PreSchedulerType), rs);
    ExtendsByAppend(e, EnqueueAll(e, rs), EnqueueEvents(Stage(e.plugins, PreSchedulerType), rs));
  }

  /**
   * Reference trace of processing `resp` for `req`: the pre-processer hook and
   * the processer call, then each discovered request after its own
   * pre-scheduler hook, then one pre-pipeline hook for the whole batch of
   * records and each record piped to `pipe`.
   */
  function ProcessEvents(plugins: map<PluginType, seq<Plugin>>, req: Request, pipe: Pipeline, resp: Option<Response>,
                         processer: Option<Response> -> Yield): seq<Event>
  {
    var y := processer(resp);
    (HookOf(plugins, PreProcesserType, OnRequest(req)) + [Processed(resp)])
    + EnqueueEvents(Stage(plugins, PreSchedulerType), y.requests)
    + (HookOf(plugins, PrePipelineType, OnItems(y.items)) + PipeEvents(pipe, y.items))
  }

  /**
   * The part of a pipeline iteration after a download that is not retried:
   * hook and process `resp`, enqueue the discoveries, hook once with the
   * records and pipe each of them to `pipe`.
   */
  function ProcessResponse(e: Engine, req: Request, pipe: Pipeline, resp: Option<Response>,
                           processer: Option<Response> -> Yield): (e': Engine)
    ensures SameSetup(e, e') && Extends(e, e')
    ensures e'.ledger == e.ledger
    ensures NewEvents(e, e') == ProcessEvents(e.plugins, req, pipe, resp, processer)
    ensures var y := processer(resp);
      Summary(NewEvents(e, e')) == Nothing.(pushed := y.requests, processed := [resp], piped := Deliveries(pipe, y.items))
    ensures var items := processer(resp).items;
      var tail := HookOf(e.plugins, PrePipelineType, OnItems(items)) + PipeEvents(pipe, items);
      EndsWith(e'.log, tail)
  {
    var y := processer(resp);
    var e1 := Announce(e, PreProcesserType, OnRequest(req), Processed(resp));
    var e2 := EnqueueAll(e1, y.requests);
    var e3 := Deliver(e2, pipe, y.items);
    EnqueueAllExtends(e1, y.requests);
    ProcessResponseSteps(e, e1, e2, e3, resp, y.requests, Deliveries(pipe, y.items),
                         HookOf(e.plugins, PrePipelineType, OnItems(y.items)) + PipeEvents(pipe, y.items));
    e3
  }

  /** Processing, enqueueing and delivering, one after the other, tally as their sum. */
  lemma ProcessResponseSteps(e: Engine, e1: Engine, e2: Engine, e3: Engine, resp: Option<Response>,
                             rs: seq<Request>, ds: seq<(Pipeline, Items)>, tail: seq<Event>)
    requires SameSetup(e, e1) && e1.ledger == e.ledger && Extends(e, e1)
    requires Summary(NewEvents(e, e1)) == TallyOf(Processed(resp))
    requires SameSetup(e1, e2) && e2.ledger == e1.ledger && Extends(e1, e2)
    requires Summary(NewEvents(e1, e2)) == Nothing.(pushed := rs)
    requires SameSetup(e2, e3) && e3.ledger == e2.ledger && Extends(e2, e3)
    requires Summary(NewEvents(e2, e3)) == Nothing.(piped := ds)
    requires e3.log == e2.log + tail
    ensures NewEvents(e, e3) == NewEvents(e, e1) + NewEvents(e1, e2) + NewEvents(e2, e3)
    ensures SameSetup(e, e3) && Extends(e, e3) && e3.ledger == e.ledger
    ensures Summary(NewEvents(e, e3)) == Nothing.(pushed := rs, processed := [resp], piped := ds)
    ensures EndsWith(e3.log, tail)
  {
    ExtendsTrans(e, e1, e2);
    ExtendsTrans(e, e2, e3);
    ProcessingTally(resp, rs, ds);
    assert e3.log[|e3.log| - |tail|..] == tail;
  }

  /**
   * One iteration of the loop in `process(req)` for pipeline `pipe`: hook and
   * download; on an error with a positive retry budget, retry and skip this
   * pipeline; otherwise (even after an error, when the budget is 0 or less)
   * hook and process, hook and push every discovered request, hook once with
   * the whole batch of records and hand each record to `pipe`.
   */
  function RunPipe(e: Engine, req: Request, pipe: Pipeline, fetch: Fetch,
                   processer: Option<Response> -> Yield): (e': Engine)
    ensures SameSetup(e, e') && Extends(e, e')
    ensures Summary(NewEvents(e, e')).downloaded == [req]
    ensures !RetriedUnder(e.config.maxRetryTimes, fetch) ==> e'.ledger == e.ledger
    ensures RetriedUnder(e.config.maxRetryTimes, fetch) ==> e'.ledger == Bump(e.ledger, Key(req), e.config.maxRetryTimes)
    ensures Summary(NewEvents(e, e')) == IterTally(e.ledger, req, e.config.maxRetryTimes, pipe, fetch, processer)
    ensures NewEvents(e, e') == IterEvents(e.plugins, e.ledger, req, e.config.maxRetryTimes, pipe, fetch, processer)
  {
    if RetriedUnder(e.config.maxRetryTimes, fetch) then DownloadThenRetry(e, req)
    else DownloadThenProcess(e, req, pipe, fetch.resp, processer)
  }

  /**
   * A failed download with a positive retry budget: the iteration does exactly
   * what `retry` does to the ledger and the queue, and neither processes nor pipes.
   */
  lemma RunPipeRetries(e: Engine, req: Request, pipe: Pipeline, fetch: Fetch, processer: Option<Response> -> Yield)
    requires fetch.err && e.config.maxRetryTimes > 0
    ensures var e' := RunPipe(e, req, pipe, fetch, processer);
      && e'.ledger == Bump(e.ledger, Key(req), e.config.maxRetryTimes) && e'.queue == Retry(e, req).queue
      && Summary(NewEvents(e, e')).processed == []
      && Summary(NewEvents(e, e')).piped == []
  {
  }

  /**
   * A successful download, or any download when the retry budget is 0 or
   * less: the response (even a failed one) reaches the processer, the
   * discoveries are pushed in yield order, and the iteration ends with one
   * pre-pipeline hook for the whole batch followed by every record piped to
   * `pipe`, in order. The ledger is not touched.
   */
  lemma RunPipeProcesses(e: Engine, req: Request, pipe: Pipeline, fetch: Fetch, processer: Option<Response> -> Yield)
    requires !fetch.err || e.config.maxRetryTimes <= 0
    ensures var e' := RunPipe(e, req, pipe, fetch, processer);
      var y := processer(fetch.resp);
      && e'.ledger == e.ledger
      && e'.queue == e.queue + y.requests
      && Summary(NewEvents(e, e')) == Nothing.(pushed := y.requests, downloaded := [req], processed := [fetch.resp],
                                               piped := Deliveries(pipe, y.items))
      && EndsWith(e'.log, HookOf(e.plugins, PrePipelineType, OnItems(y.items))
                          + PipeEvents(pipe, y.items))
  {
  }

  /** The pre-downloader hook and the download, then `retry`. */
  function DownloadThenRetry(e: Engine, req: Request): (e': Engine)
    ensures SameSetup(e, e') && Extends(e, e')
    ensures e'.ledger == Retry(e, req).ledger && e'.queue == Retry(e, req).queue
    ensures Summary(NewEvents(e, e')) == Nothing.(downloaded := [req], pushed := e'.queue[|e.queue|..])
    ensures Summary(NewEvents(e, e')) == Nothing.(downloaded := [req], pushed := Requeued(e.ledger, req, e.config.maxRetryTimes))
    ensures NewEvents(e, e') == (HookOf(e.plugins, PreDownloaderType, OnRequest(req)) + [Downloaded(req)])
                                + RetryEvents(e.plugins, e.ledger, req, e.config.maxRetryTimes)
  {
    var got := Announce(e, PreDownloaderType, OnRequest(req), Downloaded(req));
    RetryExtends(got, req);
    RetryTrace(got, req);
    NewEventsAppend(got, Retry(got, req), RetryEvents(got.plugins, got.ledger, req, got.config.maxRetryTimes));
    RetryAfterDownload(e, got, Retry(got, req), req);
    Retry(got, req)
  }

  /** A download announcement leaves nothing for `retry` to see differently. */
  lemma RetryAfterDownload(e: Engine, got: Engine, r: Engine, req: Request)
    requires SameSetup(e, got) && got.ledger == e.ledger && Extends(e, got)
    requires Summary(NewEvents(e, got)) == TallyOf(Downloaded(req))
    requires r == Retry(got, req) && Extends(got, r)
    requires Summary(NewEvents(got, r)) == Nothing.(pushed := r.queue[|got.queue|..])
    ensures SameSetup(e, r) && Extends(e, r)
    ensures r.ledger == Retry(e, req).ledger && r.queue == Retry(e, req).queue
    ensures Summary(NewEvents(e, r)) == Nothing.(downloaded := [req], pushed := r.queue[|e.queue|..])
    ensures NewEvents(e, r) == NewEvents(e, got) + NewEvents(got, r)
  {
    assert got.queue == e.queue;
    ExtendsTrans(e, got, r);
    DownloadTally(req, Summary(NewEvents(got, r)));
  }

  /** The pre-downloader hook and the download, then the response is processed. */
  function DownloadThenProcess(e: Engine, req: Request, pipe: Pipeline, resp: Option<Response>,
                               processer: Option<Response> -> Yield): (e': Engine)
    ensures SameSetup(e, e') && Extends(e, e') && e'.ledger == e.ledger
    ensures var y := processer(resp);
      Summary(NewEvents(e, e')) == Nothing.(pushed := y.requests, downloaded := [req], processed := [resp],
                                            piped := Deliveries(pipe, y.items))
    ensures var items := processer(resp).items;
      EndsWith(e'.log, HookOf(e.plugins, PrePipelineType, OnItems(items)) + PipeEvents(pipe, items))
    ensures NewEvents(e, e') == (HookOf(e.plugins, PreDownloaderType, OnRequest(req)) + [Downloaded(req)])
                                + ProcessEvents(e.plugins, req, pipe, resp, processer)
  {
    var got := Announce(e, PreDownloaderType, OnRequest(req), Downloaded(req));
    var r := ProcessResponse(got, req, pipe, resp, processer);
    assert Stage(got.plugins, PrePipelineType) == Stage(e.plugins, PrePipelineType);
    ExtendsTrans(e, got, r);
    DownloadTally(req, Summary(NewEvents(got, r)));
    r
  }

  /** None of the downloader calls `k` .. `k + n - 1` leads to a retry. */
  predicate NoRetries(e: Engine, env: Env, k: nat, n: nat)
  {
    forall i :: k <= i < k + n ==> !RetriedUnder(e.config.maxRetryTimes, env.download(i))
  }

  /** Every one of the downloader calls `k` .. `k + n - 1` leads to a retry. */
  predicate AllRetried(e: Engine, env: Env, k: nat, n: nat)
  {
    forall i :: k <= i < k + n ==> RetriedUnder(e.config.maxRetryTimes, env.download(i))
  }

  /** `n` consecutive failures of key `h`, as seen by the ledger alone. */
  function Bumps(ledger: map<Fingerprint, int>, h: Fingerprint, max: int, n: nat): map<Fingerprint, int>
    decreases n
  {
    if n == 0 then ledger else Bumps(Bump(ledger, h, max), h, max, n - 1)
  }

  /** One pipeline iteration followed by the rest of the loop. */
  lemma ProcessStep(e: Engine, e1: Engine, e2: Engine, req: Request, pipes: seq<Pipeline>)
    requires pipes != []
    requires SameSetup(e, e1) && Extends(e, e1) && Summary(NewEvents(e, e1)).downloaded == [req]
    requires SameSetup(e1, e2) && Extends(e1, e2) && Summary(NewEvents(e1, e2)).downloaded == Copies(req, |pipes[1..]|)
    ensures SameSetup(e, e2) && Extends(e, e2) && Summary(NewEvents(e, e2)).downloaded == Copies(req, |pipes|)
  {
    ExtendsTrans(e, e1, e2);
    CopiesCons(req, |pipes|);
  }

  /** The tally across one pipeline iteration followed by the rest of the loop. */
  lemma LoopTallyStep(e: Engine, e1: Engine, e2: Engine, req: Request, env: Env, pipes: seq<Pipeline>, k: nat)
    requires pipes != [] && e1.config == e.config && Extends(e, e1) && Extends(e1, e2)
    requires e1.ledger == LedgerAfter(e.ledger, req, e.config.maxRetryTimes, env.download(k))
    requires Summary(NewEvents(e, e1)) == IterTally(e.ledger, req, e.config.maxRetryTimes, pipes[0], env.download(k), env.processer)
    requires Summary(NewEvents(e1, e2)) == LoopTally(e1.ledger, req, e1.config.maxRetryTimes, env, pipes[1..], k + 1)
    ensures Summary(NewEvents(e, e2)) == LoopTally(e.ledger, req, e.config.maxRetryTimes, env, pipes, k)
  {
    var max := e.config.maxRetryTimes;
    var head := IterTally(e.ledger, req, max, pipes[0], env.download(k), env.processer);
    var rest := LoopTally(e1.ledger, req, max, env, pipes[1..], k + 1);
    ExtendsTrans(e, e1, e2);
    assert Summary(NewEvents(e, e2)) == Plus(head, rest);
    assert LoopTally(e.ledger, req, max, env, pipes, k) == Plus(head, rest);
  }

  /** The trace across one pipeline iteration followed by the rest of the loop. */
  lemma LoopEventsStep(e: Engine, e1: Engine, e2: Engine, req: Request, env: Env, pipes: seq<Pipeline>, k: nat)
    requires pipes != [] && SameSetup(e, e1) && Extends(e, e1) && Extends(e1, e2)
    requires e1.ledger == LedgerAfter(e.ledger, req, e.config.maxRetryTimes, env.download(k))
    requires NewEvents(e, e1) == IterEvents(e.plugins, e.ledger, req, e.config.maxRetryTimes, pipes[0], env.download(k), env.processer)
    requires NewEvents(e1, e2) == LoopEvents(e1.plugins, e1.ledger, req, e1.config.maxRetryTimes, env, pipes[1..], k + 1)
    ensures NewEvents(e, e2) == LoopEvents(e.plugins, e.ledger, req, e.config.maxRetryTimes, env, pipes, k)
  {
    ExtendsTrans(e, e1, e2);
  }

  /** The ledger across one pipeline iteration followed by the rest of the loop. */
  lemma LoopLedgerStep(l: map<Fingerprint, int>, l1: map<Fingerprint, int>, l2: map<Fingerprint, int>, req: Request, max: int,
                       env: Env, pipes: seq<Pipeline>, k: nat)
    requires pipes != []
    requires l1 == LedgerAfter(l, req, max, env.download(k))
    requires l2 == Bumps(l1, Key(req), max, RetryCount(max, env, pipes[1..], k + 1))
    ensures l2 == Bumps(l, Key(req), max, RetryCount(max, env, pipes, k))
  {
    var m := RetryCount(max, env, pipes[1..], k + 1);
    if RetriedUnder(max, env.download(k)) {
      assert RetryCount(max, env, pipes, k) == m + 1;
      assert Bumps(l, Key(req), max, m + 1) == Bumps(Bump(l, Key(req), max), Key(req), max, m);
    } else {
      assert RetryCount(max, env, pipes, k) == m;
    }
  }

  /**
   * The loop of `process(req)` over `pipes`, whose first iteration makes the
   * k-th downloader call of the task. Each pipeline costs one download; the
   * new events tally exactly as the reference `LoopTally` (what is pushed,
   * processed and piped, iteration by iteration, including runs where some
   * downloads are retried and others are not); the ledger moves by one
   * `Bump` per retried download and is otherwise untouched.
   */
  function ProcessFrom(e: Engine, req: Request, env: Env, pipes: seq<Pipeline>, k: nat): (e': Engine)
    ensures SameSetup(e, e') && Extends(e, e')
    ensures Summary(NewEvents(e, e')).downloaded == Copies(req, |pipes|)
    ensures Summary(NewEvents(e, e')) == LoopTally(e.ledger, req, e.config.maxRetryTimes, env, pipes, k)
    ensures e'.ledger == Bumps(e.ledger, Key(req), e.config.maxRetryTimes, RetryCount(e.config.maxRetryTimes, env, pipes, k))
    ensures NewEvents(e, e') == LoopEvents(e.plugins, e.ledger, req, e.config.maxRetryTimes, env, pipes, k)
    decreases |pipes|
  {
    if pipes == [] then
      ExtendsRefl(e);
      e
    else
      var e1 := RunPipe(e, req, pipes[0], env.download(k), env.processer);
      var e2 := ProcessFrom(e1, req, env, pipes[1..], k + 1);
      ProcessStep(e, e1, e2, req, pipes);
      LoopTallyStep(e, e1, e2, req, env, pipes, k);
      LoopLedgerStep(e.ledger, e1.ledger, e2.ledger, req, e.config.maxRetryTimes, env, pipes, k);
      LoopEventsStep(e, e1, e2, req, env, pipes, k);
      e2
  }

  /** No retried download means a retry count of zero. */
  lemma {:induction false} RetryCountNone(e: Engine, env: Env, pipes: seq<Pipeline>, k: nat)
    requires NoRetries(e, env, k, |pipes|)
    ensures RetryCount(e.config.maxRetryTimes, env, pipes, k) == 0
    decreases |pipes|
  {
    if pipes != [] {
      assert !RetriedUnder(e.config.maxRetryTimes, env.download(k));
      assert NoRetries(e, env, k + 1, |pipes[1..]|);
      RetryCountNone(e, env, pipes[1..], k + 1);
    }
  }

  /** Every download retried means one retry per pipeline. */
  lemma {:induction false} RetryCountAll(e: Engine, env: Env, pipes: seq<Pipeline>, k: nat)
    requires AllRetried(e, env, k, |pipes|)
    ensures RetryCount(e.config.maxRetryTimes, env, pipes, k) == |pipes|
    decreases |pipes|
  {
    if pipes != [] {
      assert RetriedUnder(e.config.maxRetryTimes, env.download(k));
      assert AllRetried(e, env, k + 1, |pipes[1..]|);
      RetryCountAll(e, env, pipes[1..], k + 1);
    }
  }

  lemma RetryCountExtremes(e: Engine, env: Env, pipes: seq<Pipeline>, k: nat)
    ensures NoRetries(e, env, k, |pipes|) ==> RetryCount(e.config.maxRetryTimes, env, pipes, k) == 0
    ensures AllRetried(e, env, k, |pipes|) ==> RetryCount(e.config.maxRetryTimes, env, pipes, k) == |pipes|
  {
    if NoRetries(e, env, k, |pipes|) {
      RetryCountNone(e, env, pipes, k);
    }
    if AllRetried(e, env, k, |pipes|) {
      RetryCountAll(e, env, pipes, k);
    }
  }

  /**
   * `process(req)`: the loop over the engine's pipelines; with k pipelines the
   * downloader is called k times for the same request.
   */
  function Process(e: Engine, req: Request, env: Env): (e': Engine)
    ensures SameSetup(e, e') && Extends(e, e')
    ensures Summary(NewEvents(e, e')).downloaded == Copies(req, |e.pipelines|)
    ensures Summary(NewEvents(e, e')) == LoopTally(e.ledger, req, e.config.maxRetryTimes, env, e.pipelines, 0)
    ensures e'.ledger == Bumps(e.ledger, Key(req), e.config.maxRetryTimes, RetryCount(e.config.maxRetryTimes, env, e.pipelines, 0))
    ensures NoRetries(e, env, 0, |e.pipelines|) ==> e'.ledger == e.ledger
    ensures AllRetried(e, env, 0, |e.pipelines|)
            ==> e'.ledger == Bumps(e.ledger, Key(req), e.config.maxRetryTimes, |e.pipelines|)
    ensures NewEvents(e, e') == LoopEvents(e.plugins, e.ledger, req, e.config.maxRetryTimes, env, e.pipelines, 0)
    ensures Announced(e.plugins, req, NewEvents(e, e'))
  {
    RetryCountExtremes(e, env, e.pipelines, 0);
    AnnouncedLoop(e.plugins, e.ledger, req, e.config.maxRetryTimes, env, e.pipelines, 0);
    ProcessFrom(e, req, env, e.pipelines, 0)
  }

  /**
   * Reference trace of the corrected loop over `pipes` from the k-th
   * downloader call: the iterations' `IterEvents` in order, ending right
   * after the first retried one. Iterations before it leave the ledger alone.
   */
  function UntilRetryEvents(plugins: map<PluginType, seq<Plugin>>, ledger: map<Fingerprint, int>, req: Request,
                            max: int, env: Env, pipes: seq<Pipeline>, k: nat): seq<Event>
    decreases |pipes|
  {
    if pipes == [] then []
    else IterEvents(plugins, ledger, req, max, pipes[0], env.download(k), env.processer)
         + (if RetriedUnder(max, env.download(k)) then []
            else UntilRetryEvents(plugins, ledger, req, max, env, pipes[1..], k + 1))
  }

  /** How many downloader calls the corrected loop makes: up to and including the first retried one. */
  function FirstRetry(max: int, env: Env, pipes: seq<Pipeline>, k: nat): nat
    decreases |pipes|
  {
    if pipes == [] then 0
    else if RetriedUnder(max, env.download(k)) then 1
    else 1 + FirstRetry(max, env, pipes[1..], k + 1)
  }

  /**
   * `FirstRetry` counts exactly the downloads up to the first retried one:
   * when call `j` is the first retried call, the loop makes `j - k + 1` calls;
   * when none is retried, one per pipeline.
   */
  lemma {:induction false} FirstRetryStops(max: int, env: Env, pipes: seq<Pipeline>, k: nat, j: nat)
    requires k <= j < k + |pipes| && RetriedUnder(max, env.download(j))
    requires forall i :: k <= i < j ==> !RetriedUnder(max, env.download(i))
    ensures FirstRetry(max, env, pipes, k) == j - k + 1
    decreases |pipes|
  {
    if j > k {
      assert !RetriedUnder(max, env.download(k));
      FirstRetryStops(max, env, pipes[1..], k + 1, j);
    }
  }

  lemma {:induction false} FirstRetryNone(max: int, env: Env, pipes: seq<Pipeline>, k: nat)
    requires forall i :: k <= i < k + |pipes| ==> !RetriedUnder(max, env.download(i))
    ensures FirstRetry(max, env, pipes, k) == |pipes|
    decreases |pipes|
  {
    if pipes != [] {
      assert !RetriedUnder(max, env.download(k));
      FirstRetryNone(max, env, pipes[1..], k + 1);
    }
  }

  /** A retried first iteration is the whole of the corrected loop. */
  lemma UntilRetryLast(e: Engine, e1: Engine, req: Request, env: Env, pipes: seq<Pipeline>, k: nat)
    requires pipes != [] && RetriedUnder(e.config.maxRetryTimes, env.download(k)) && Extends(e, e1)
    requires NewEvents(e, e1) == IterEvents(e.plugins, e.ledger, req, e.config.maxRetryTimes, pipes[0], env.download(k), env.processer)
    requires Summary(NewEvents(e, e1)).downloaded == [req]
    ensures NewEvents(e, e1) == UntilRetryEvents(e.plugins, e.ledger, req, e.config.maxRetryTimes, env, pipes, k)
    ensures Summary(NewEvents(e, e1)).downloaded == Copies(req, FirstRetry(e.config.maxRetryTimes, env, pipes, k))
  {
    var it := IterEvents(e.plugins, e.ledger, req, e.config.maxRetryTimes, pipes[0], env.download(k), env.processer);
    assert it + [] == it;
    assert Copies(req, 1) == [req];
  }

  /** A first iteration that is not retried, followed by the rest of the corrected loop. */
  lemma UntilRetryEventsStep(e: Engine, e1: Engine, e2: Engine, req: Request, env: Env, pipes: seq<Pipeline>, k: nat)
    requires pipes != [] && !RetriedUnder(e.config.maxRetryTimes, env.download(k))
    requires SameSetup(e, e1) && e1.ledger == e.ledger && Extends(e, e1) && Extends(e1, e2)
    requires NewEvents(e, e1) == IterEvents(e.plugins, e.ledger, req, e.config.maxRetryTimes, pipes[0], env.download(k), env.processer)
    requires Summary(NewEvents(e, e1)).downloaded == [req]
    requires NewEvents(e1, e2) == UntilRetryEvents(e1.plugins, e1.ledger, req, e1.config.maxRetryTimes, env, pipes[1..], k + 1)
    requires Summary(NewEvents(e1, e2)).downloaded == Copies(req, FirstRetry(e1.config.maxRetryTimes, env, pipes[1..], k + 1))
    ensures NewEvents(e, e2) == UntilRetryEvents(e.plugins, e.ledger, req, e.config.maxRetryTimes, env, pipes, k)
    ensures Summary(NewEvents(e, e2)).downloaded == Copies(req, FirstRetry(e.config.maxRetryTimes, env, pipes, k))
  {
    ExtendsTrans(e, e1, e2);
    CopiesCons(req, FirstRetry(e.config.maxRetryTimes, env, pipes, k));
  }

  /**
   * The pipeline loop with the retry budget kept per dispatch: a retried
   * download ends the task's work on the request, so one task calls `retry`
   * at most once however many pipelines there are. Iterations that are not
   * retried behave as in `ProcessFrom`.
   */
  function ProcessUntilRetry(e: Engine, req: Request, env: Env, pipes: seq<Pipeline>, k: nat): (e': Engine)
    ensures SameSetup(e, e') && Extends(e, e')
    ensures pipes != [] && RetriedUnder(e.config.maxRetryTimes, env.download(k))
            ==> e'.ledger == Retry(e, req).ledger && e'.queue == Retry(e, req).queue
    ensures NoRetries(e, env, k, |pipes|) ==> e'.ledger == e.ledger
    ensures !NoRetries(e, env, k, |pipes|) ==> e'.ledger == Bump(e.ledger, Key(req), e.config.maxRetryTimes)
    ensures NewEvents(e, e') == UntilRetryEvents(e.plugins, e.ledger, req, e.config.maxRetryTimes, env, pipes, k)
    ensures Summary(NewEvents(e, e')).downloaded == Copies(req, FirstRetry(e.config.maxRetryTimes, env, pipes, k))
    decreases |pipes|
  {
    if pipes == [] then
      ExtendsRefl(e);
      e
    else
      var e1 := RunPipe(e, req, pipes[0], env.download(k), env.processer);
      if RetriedUnder(e.config.maxRetryTimes, env.download(k)) then
        UntilRetryLast(e, e1, req, env, pipes, k);
        e1
      else
        var e2 := ProcessUntilRetry(e1, req, env, pipes[1..], k + 1);
        ExtendsTrans(e, e1, e2);
        UntilRetryStep(e, e1, e2, req, env, pipes, k);
        UntilRetryEventsStep(e, e1, e2, req, env, pipes, k);
        e2
  }

  /** An iteration that is not retried leaves the ledger to the rest of the loop. */
  lemma UntilRetryStep(e: Engine, e1: Engine, e2: Engine, req: Request, env: Env, pipes: seq<Pipeline>, k: nat)
    requires pipes != [] && !RetriedUnder(e.config.maxRetryTimes, env.download(k)) && SameSetup(e, e1) && e1.ledger == e.ledger
    requires NoRetries(e1, env, k + 1, |pipes[1..]|) ==> e2.ledger == e1.ledger
    requires !NoRetries(e1, env, k + 1, |pipes[1..]|) ==> e2.ledger == Bump(e1.ledger, Key(req), e1.config.maxRetryTimes)
    ensures NoRetries(e, env, k, |pipes|) ==> e2.ledger == e.ledger
    ensures !NoRetries(e, env, k, |pipes|) ==> e2.ledger == Bump(e.ledger, Key(req), e.config.maxRetryTimes)
  {
    if NoRetries(e1, env, k + 1, |pipes[1..]|) {
      assert NoRetries(e, env, k, |pipes|) by {
        forall i | k <= i < k + |pipes| ensures !RetriedUnder(e.config.maxRetryTimes, env.download(i)) {
          if i > k {
            assert !RetriedUnder(e1.config.maxRetryTimes, env.download(i));
          }
        }
      }
    } else {
      var i :| k + 1 <= i < k + 1 + |pipes[1..]| && RetriedUnder(e1.config.maxRetryTimes, env.download(i));
      assert RetriedUnder(e.config.maxRetryTimes, env.download(i));
    }
  }

  /** `process` with the loop stopped at the first retry. */
  function ProcessOnce(e: Engine, req: Request, env: Env): (e': Engine)
    ensures SameSetup(e, e') && Extends(e, e')
    ensures e.pipelines != [] && RetriedUnder(e.config.maxRetryTimes, env.download(0))
            ==> && e'.ledger == Bump(e.ledger, Key(req), e.config.maxRetryTimes)
                && e'.queue == e.queue + Requeued(e.ledger, req, e.config.maxRetryTimes)
    ensures e'.ledger == e.ledger || e'.ledger == Bump(e.ledger, Key(req), e.config.maxRetryTimes)
    ensures NewEvents(e, e') == UntilRetryEvents(e.plugins, e.ledger, req, e.config.maxRetryTimes, env, e.pipelines, 0)
    ensures Summary(NewEvents(e, e')).downloaded == Copies(req, FirstRetry(e.config.maxRetryTimes, env, e.pipelines, 0))
  {
    var e' := ProcessUntilRetry(e, req, env, e.pipelines, 0);
    assert e.pipelines != [] && RetriedUnder(e.config.maxRetryTimes, env.download(0)) ==> e'.queue == Retry(e, req).queue;
    e'
  }

  /**
   * The corrected task stops at its first retried download: when the j-th
   * downloader call is the first one retried, the task downloads exactly
   * j + 1 times, and its trace ends with that iteration.
   */
  lemma OnceStopsAtFirstRetry(e: Engine, req: Request, env: Env, j: nat)
    requires j < |e.pipelines| && RetriedUnder(e.config.maxRetryTimes, env.download(j))
    requires forall i :: 0 <= i < j ==> !RetriedUnder(e.config.maxRetryTimes, env.download(i))
    ensures Summary(NewEvents(e, ProcessOnce(e, req, env))).downloaded == Copies(req, j + 1)
  {
    var n := FirstRetry(e.config.maxRetryTimes, env, e.pipelines, 0);
    FirstRetryStops(e.config.maxRetryTimes, env, e.pipelines, 0, j);
    assert n == j + 1;
    var e' := ProcessOnce(e, req, env);
    assert Summary(NewEvents(e, e')).downloaded == Copies(req, n);
  }

  /**
   * With the default single pipeline the per-dispatch loop and the loop as
   * written do the same thing, so every result about `ProcessOnce` holds for
   * `Process` in the default configuration.
   */
  lemma OnePipelineSame(e: Engine, req: Request, env: Env)
    requires |e.pipelines| == 1
    ensures ProcessOnce(e, req, env) == Process(e, req, env)
  {
    var pipes := e.pipelines;
    var e1 := RunPipe(e, req, pipes[0], env.download(0), env.processer);
    assert pipes[1..] == [];
    assert ProcessFrom(e1, req, env, pipes[1..], 1) == e1;
    assert ProcessUntilRetry(e1, req, env, pipes[1..], 1) == e1;
    assert ProcessFrom(e, req, env, pipes, 0) == e1;
    assert ProcessUntilRetry(e, req, env, pipes, 0) == e1;
  }

  /**
   * The completion of the task spawned for `running[i]`: it runs `process`
   * and then, unconditionally, `Dealloc`.
   */
  function Finish(e: Engine, i: nat, env: Env): (e': Engine)
    requires i < |e.running| && e.rm.count > 0
    ensures e'.rm.count == e.rm.count - 1 && e'.rm.limit == e.rm.limit
    ensures e'.running == e.running[..i] + e.running[i + 1..]
    ensures Extends(e, e')
    ensures Summary(NewEvents(e, e')).downloaded == Copies(e.running[i], |e.pipelines|)
    ensures e'.taskName == e.taskName && e'.config == e.config
    ensures e'.plugins == e.plugins && e'.pipelines == e.pipelines
    ensures NewEvents(e, e') == LoopEvents(e.plugins, e.ledger, e.running[i], e.config.maxRetryTimes, env, e.pipelines, 0)
    ensures Summary(NewEvents(e, e')) == LoopTally(e.ledger, e.running[i], e.config.maxRetryTimes, env, e.pipelines, 0)
    ensures e'.ledger == Bumps(e.ledger, Key(e.running[i]), e.config.maxRetryTimes,
                               RetryCount(e.config.maxRetryTimes, env, e.pipelines, 0))
  {
    var p := Process(e, e.running[i], env);
    p.(rm := Resources.Dealloc(p.rm), running := p.running[..i] + p.running[i + 1..])
  }
}
