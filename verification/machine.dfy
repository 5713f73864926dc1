/**
 * Whole-engine properties of src/spider/core/engine/engine.go: the invariant
 * every reachable state keeps, when the poll loop stops, the retry budget,
 * and the order in which plugins run.
 */
module Machine {
  import opened Wrappers
  import opened Common
  import opened Collaborators
  import opened Trace
  import opened Engine
  import Resources
  import Scheduler

  /**
   * Every request ever pushed has been dispatched or is still queued, and the
   * dispatch order is the push order: nothing is lost, duplicated or overtaken.
   */
  predicate Accounted(e: Engine)
  {
    Summary(e.log).pushed == Summary(e.log).dispatched + e.queue
  }

  /** Each plugin is filed under its own stage. */
  predicate WellKeyed(e: Engine)
  {
    forall t :: t in e.plugins ==> forall j :: 0 <= j < |e.plugins[t]| ==> e.plugins[t][j].kind == t
  }

  /**
   * The engine invariant: one held resource per in-flight task, never more
   * than the limit, the queue accounted for by the trace, plugins well filed.
   */
  predicate Inv(e: Engine)
  {
    && e.rm.count == |e.running|
    && Resources.Bounded(e.rm)
    && Accounted(e)
    && WellKeyed(e)
  }

  lemma NewEngineInv(taskName: string, defaults: Config)
    ensures Inv(NewEngine(taskName, defaults))
  {
  }

  /** A continuation in the sense of `Extends` keeps the queue accounted for. */
  lemma ExtendsAccounted(e: Engine, e': Engine)
    requires Accounted(e) && Extends(e, e')
    ensures Accounted(e')
  {
    var evs := NewEvents(e, e');
    assert e'.log == e.log + evs;
    SummaryAppend(e.log, evs);
    AccountedTally(Summary(e.log), Summary(evs), e.queue, e'.queue);
  }

  lemma AccountedTally(s: Tally, d: Tally, q: Scheduler.Queue, q': Scheduler.Queue)
    requires s.pushed == s.dispatched + q
    requires q' == q + d.pushed && d.dispatched == []
    ensures Plus(s, d).pushed == Plus(s, d).dispatched + q'
  {
    assert s.dispatched + [] == s.dispatched;
  }

  /** Dispatching the head of the queue keeps it accounted for. */
  lemma DispatchAccounted(e: Engine)
    requires Accounted(e) && Tick(e).Spawned?
    ensures Accounted(Tick(e).next)
  {
    var n := Tick(e).next;
    var q0 := e.queue[0];
    SummaryAppend(e.log, [Dispatched(q0)]);
    assert [Dispatched(q0)][1..] == [];
    PlusNothing(TallyOf(Dispatched(q0)));
    assert Summary([Dispatched(q0)]) == Nothing.(dispatched := [q0]);
    assert e.queue == [q0] + n.queue;
  }

  /** The atomic steps of the engine: one loop iteration, or the completion of in-flight task `i`. */
  datatype Action = Loop | Complete(i: nat, env: Env)

  /** An action can be taken: only an existing in-flight task can complete. */
  predicate Enabled(e: Engine, a: Action)
  {
    a.Complete? ==> a.i < |e.running|
  }

  /**
   * The state after action `a`. A loop iteration that does not spawn (it stops,
   * finds the queue empty or finds no free slot) only sleeps. Every step keeps
   * the invariant.
   */
  function Next(e: Engine, a: Action): (e': Engine)
    requires Inv(e) && Enabled(e, a)
    ensures Inv(e')
  {
    match a
    case Loop =>
      (match Tick(e)
       case Spawned(n) => DispatchAccounted(e); n
       case _ => e)
    case Complete(i, env) =>
      ExtendsAccounted(e, Finish(e, i, env));
      Finish(e, i, env)
  }

  /**
   * Runs the actions in order; `None` when one is not enabled. Every state
   * reachable this way keeps the invariant.
   */
  function Run(e: Engine, actions: seq<Action>): (r: Option<Engine>)
    requires Inv(e)
    ensures r.Some? ==> Inv(r.value)
    decreases |actions|
  {
    if actions == [] then Some(e)
    else if !Enabled(e, actions[0]) then None
    else Run(Next(e, actions[0]), actions[1..])
  }

  /**
   * The poll loop leaves exactly when `isDone` holds, and in an invariant state
   * that is exactly when no request is queued and no task is in flight: an
   * in-flight task, which may still push new work, keeps the engine alive.
   */
  lemma StopIffQuiescent(e: Engine)
    requires Inv(e)
    ensures Tick(e).Stop? <==> IsDone(e)
    ensures Tick(e).Stop? <==> e.queue == [] && e.running == []
  {
  }

  /** On leaving the loop every request ever pushed has been dispatched, in push order. */
  lemma StopAllDispatched(e: Engine)
    requires Inv(e) && Tick(e).Stop?
    ensures Summary(e.log).pushed == Summary(e.log).dispatched
  {
    assert Summary(e.log).dispatched + [] == Summary(e.log).dispatched;
  }

  /**
   * A loop iteration removes one request, the head, and takes one slot
   * exactly when the queue is non-empty and `Alloc` succeeds; every other
   * iteration changes nothing.
   */
  lemma TickTakesHead(e: Engine)
    requires Inv(e)
    ensures Tick(e).Spawned? <==> e.queue != [] && |e.running| < e.rm.limit
    ensures Tick(e).Spawned? ==>
      && Tick(e).next.queue == e.queue[1..]
      && Tick(e).next.running == e.running + [e.queue[0]]
      && Inv(Tick(e).next)
    ensures !Tick(e).Spawned? ==> Next(e, Loop) == e
  {
    if Tick(e).Spawned? {
      DispatchAccounted(e);
    }
  }

  /**
   * A completing task always releases its slot: afterwards one task fewer is
   * in flight and one fewer resource is held, whatever its downloads did.
   */
  lemma CompleteReleases(e: Engine, i: nat, env: Env)
    requires Inv(e) && i < |e.running|
    ensures var e' := Next(e, Complete(i, env));
      && e'.rm.count == e.rm.count - 1
      && |e'.running| == |e.running| - 1
      && Inv(e')
  {
  }

  /** `SetStartUrl` keeps the invariant. */
  lemma SetStartUrlInv(e: Engine, url: string)
    requires Inv(e)
    ensures Inv(SetStartUrl(e, url))
  {
    var e1 := SetStartUrl(e, url);
    var evs := EnqueueBlock(Stage(e.plugins, PreSchedulerType), NewRequest(url));
    HookThen(Stage(e.plugins, PreSchedulerType), PreSchedulerType, OnRequest(NewRequest(url)), Pushed(NewRequest(url)));
    ExtendsByAppend(e, e1, evs);
    ExtendsAccounted(e, e1);
  }

  /** `SetStartUrls` keeps the invariant. */
  lemma SetStartUrlsInv(e: Engine, urls: seq<string>)
    requires Inv(e)
    ensures Inv(SetStartUrls(e, urls))
  {
    ExtendsAccounted(e, SetStartUrls(e, urls));
  }

  /** `AddPlugin` keeps the invariant: the plugin is filed under its own stage. */
  lemma AddPluginInv(e: Engine, p: Plugin)
    requires Inv(e)
    ensures Inv(AddPlugin(e, p))
  {
    var e2 := AddPlugin(e, p);
    forall t | t in e2.plugins
      ensures forall j :: 0 <= j < |e2.plugins[t]| ==> e2.plugins[t][j].kind == t
    {
      if t == p.kind {
        assert e2.plugins[t] == Stage(e.plugins, t) + [p];
      } else {
        assert e2.plugins[t] == e.plugins[t];
      }
    }
  }

  /** Replacing the pipelines keeps the invariant. */
  lemma SetPipelineInv(e: Engine, pipe: Pipeline, ps: seq<Pipeline>)
    requires Inv(e)
    ensures Inv(SetPipeline(e, pipe)) && Inv(SetPipelines(e, ps))
  {
  }

  /** `SetConfig` before `Start` (nothing in flight) keeps the invariant. */
  lemma SetConfigInv(e: Engine, c: Config)
    requires Inv(e) && e.running == []
    ensures Inv(SetConfig(e, c))
  {
  }

  /** `SetPipeline` leaves one pipeline, so `process` then downloads once. */
  lemma SinglePipelineDownloadsOnce(e: Engine, p: Pipeline, req: Request, env: Env)
    ensures var e1 := SetPipeline(e, p);
      Summary(NewEvents(e1, Process(e1, req, env))).downloaded == [req]
  {
    var e1 := SetPipeline(e, p);
    CopiesCons(req, 1);
  }

  // ---------------------------------------------------------------------------
  // The retry budget

  /** `n` consecutive calls of `retry(req)`. */
  function Retries(e: Engine, req: Request, n: nat): Engine
    decreases n
  {
    if n == 0 then e else Retries(Retry(e, req), req, n - 1)
  }

  /**
   * Within the budget, each failure adds exactly one to the key's count and
   * re-enqueues the request once; no other key is touched.
   */
  lemma RetriesWithinBudget(e: Engine, req: Request, n: nat)
    requires 0 <= Attempts(e, Key(req))
    requires Attempts(e, Key(req)) + n <= e.config.maxRetryTimes
    ensures var e' := Retries(e, req, n);
      && Attempts(e', Key(req)) == Attempts(e, Key(req)) + n
      && (n > 0 ==> Key(req) in e'.ledger)
      && e'.queue == e.queue + Copies(req, n)
      && e'.ledger - {Key(req)} == e.ledger - {Key(req)}
      && e'.config == e.config
  {
    var max := e.config.maxRetryTimes;
    RetriesBumps(e, req, n);
    RetriesQueue(e, req, n);
    RetriesSetup(e, req, n);
    BumpsWithinBudget(e.ledger, Key(req), max, n);
    RequeuedRunWithinBudget(e.ledger, req, max, n);
  }

  /** `retry` never touches the engine's setup, however often it runs. */
  lemma {:induction false} RetriesSetup(e: Engine, req: Request, n: nat)
    ensures SameSetup(e, Retries(e, req, n))
    decreases n
  {
    if n > 0 {
      RetriesSetup(Retry(e, req), req, n - 1);
    }
  }

  /** Within the budget, n bumps of key `h` add exactly n to its count and leave every other key alone. */
  lemma {:induction false} BumpsWithinBudget(l: map<Fingerprint, int>, h: Fingerprint, max: int, n: nat)
    requires 0 <= (if h in l then l[h] else 0)
    requires (if h in l then l[h] else 0) + n <= max
    ensures n > 0 ==> h in Bumps(l, h, max, n) && Bumps(l, h, max, n)[h] == (if h in l then l[h] else 0) + n
    ensures Bumps(l, h, max, n) - {h} == l - {h}
    decreases n
  {
    if n > 0 {
      var l1 := Bump(l, h, max);
      assert h in l1 && l1[h] == (if h in l then l[h] else 0) + 1;
      assert l1 - {h} == l - {h};
      BumpsWithinBudget(l1, h, max, n - 1);
    }
  }

  /** Within the budget, every one of n consecutive `retry` calls re-queues the request. */
  lemma {:induction false} RequeuedRunWithinBudget(l: map<Fingerprint, int>, req: Request, max: int, n: nat)
    requires 0 <= (if Key(req) in l then l[Key(req)] else 0)
    requires (if Key(req) in l then l[Key(req)] else 0) + n <= max
    ensures RequeuedRun(l, req, max, n) == Copies(req, n)
    decreases n
  {
    if n > 0 {
      var l1 := Bump(l, Key(req), max);
      assert Requeued(l, req, max) == [req];
      RequeuedRunWithinBudget(l1, req, max, n - 1);
      CopiesCons(req, n);
    }
  }

  lemma {:induction false} RetriesSnoc(e: Engine, req: Request, n: nat)
    ensures Retries(e, req, n + 1) == Retry(Retries(e, req, n), req)
    decreases n
  {
    if n > 0 {
      var e1 := Retry(e, req);
      RetriesSnoc(e1, req, n - 1);
      assert Retries(e, req, n + 1) == Retries(e1, req, n);
      assert Retries(e, req, n) == Retries(e1, req, n - 1);
    }
  }

  /**
   * A request whose download always fails: starting with no ledger entry, the
   * first `maxRetryTimes` failures each re-enqueue it, the next one gives up,
   * and afterwards the ledger is exactly as before (no entry for its key).
   */
  lemma GiveUpAfterBudget(e: Engine, req: Request)
    requires Key(req) !in e.ledger && e.config.maxRetryTimes >= 0
    ensures var e' := Retries(e, req, e.config.maxRetryTimes + 1);
      && Key(req) !in e'.ledger
      && e'.ledger == e.ledger
      && e'.queue == e.queue + Copies(req, e.config.maxRetryTimes)
  {
    var max := e.config.maxRetryTimes;
    var m := Retries(e, req, max);
    RetriesWithinBudget(e, req, max);
    RetriesSnoc(e, req, max);
    var e' := Retry(m, req);
    assert e'.ledger == e.ledger by {
      assert e'.ledger == e'.ledger - {Key(req)};
      assert e.ledger == e.ledger - {Key(req)};
    }
  }

  /** `retry` reads only the ledger and the budget: its effect on the ledger is `Bump`. */
  lemma {:induction false} RetriesBumps(e: Engine, req: Request, n: nat)
    ensures Retries(e, req, n).ledger == Bumps(e.ledger, Key(req), e.config.maxRetryTimes, n)
    decreases n
  {
    if n > 0 {
      var e1 := Retry(e, req);
      assert e1.config == e.config && e1.ledger == Bump(e.ledger, Key(req), e.config.maxRetryTimes);
      RetriesBumps(e1, req, n - 1);
    }
  }

  /**
   * With a positive budget, a task whose every download fails calls `retry`
   * once per pipeline: `process` leaves the ledger exactly as that many
   * consecutive `retry` calls do.
   */
  lemma ProcessAllFailing(e: Engine, req: Request, env: Env)
    requires e.config.maxRetryTimes > 0
    requires forall i :: 0 <= i < |e.pipelines| ==> env.download(i).err
    ensures Process(e, req, env).ledger == Retries(e, req, |e.pipelines|).ledger
  {
    assert AllRetried(e, env, 0, |e.pipelines|);
    RetriesBumps(e, req, |e.pipelines|);
  }

  /** The pushes of a loop whose first two downloads are retried start with those two `retry` pushes. */
  lemma LoopPushesTwoRetries(l: map<Fingerprint, int>, req: Request, max: int, env: Env, pipes: seq<Pipeline>)
    requires |pipes| >= 2 && RetriedUnder(max, env.download(0)) && RetriedUnder(max, env.download(1))
    ensures var l1 := Bump(l, Key(req), max);
      LoopTally(l, req, max, env, pipes, 0).pushed
      == (Requeued(l, req, max) + Requeued(l1, req, max)) + LoopTally(Bump(l1, Key(req), max), req, max, env, pipes[2..], 2).pushed
  {
    var l1 := Bump(l, Key(req), max);
    assert pipes[1..][1..] == pipes[2..];
    AppendAssoc(Requeued(l, req, max), Requeued(l1, req, max),
                LoopTally(Bump(l1, Key(req), max), req, max, env, pipes[2..], 2).pushed);
  }

  /**
   * As written, with two or more pipelines a task whose first two downloads
   * fail re-queues the request, whatever the ledger holds: when the first
   * `retry` of the task gives up and deletes the entry, the second starts the
   * count again at 1. A request whose downloads always fail is never dropped.
   */
  lemma EveryDispatchRequeues(e: Engine, req: Request, env: Env)
    requires |e.pipelines| >= 2 && e.config.maxRetryTimes > 0
    requires env.download(0).err && env.download(1).err
    ensures var p := Process(e, req, env);
      |e.queue| <= |p.queue| && req in p.queue[|e.queue|..]
  {
    var p := Process(e, req, env);
    LoopRequeues(e.ledger, req, e.config.maxRetryTimes, env, e.pipelines);
    PushedSuffix(e.queue, p.queue, Summary(NewEvents(e, p)).pushed, req);
  }

  /** The ledger-only core of `EveryDispatchRequeues`: the loop's pushes contain the request. */
  lemma LoopRequeues(l: map<Fingerprint, int>, req: Request, max: int, env: Env, pipes: seq<Pipeline>)
    requires |pipes| >= 2 && max > 0 && env.download(0).err && env.download(1).err
    ensures req in LoopTally(l, req, max, env, pipes, 0).pushed
  {
    var l1 := Bump(l, Key(req), max);
    LoopPushesTwoRetries(l, req, max, env, pipes);
    SomeRetryRequeues(l, req, max);
  }

  /** Of two consecutive `retry` calls for a key, at least one re-queues: a give-up leaves a fresh count of 1. */
  lemma SomeRetryRequeues(l: map<Fingerprint, int>, req: Request, max: int)
    requires max > 0
    ensures req in Requeued(l, req, max) + Requeued(Bump(l, Key(req), max), req, max)
  {
    var l1 := Bump(l, Key(req), max);
    if Key(req) !in l1 {
      assert Requeued(l1, req, max) == [req];
    } else {
      assert Requeued(l, req, max) == [req];
    }
  }

  lemma PushedSuffix(q: seq<Request>, q': seq<Request>, pushed: seq<Request>, req: Request)
    requires q' == q + pushed && req in pushed
    ensures |q| <= |q'| && req in q'[|q|..]
  {
    assert q'[|q|..] == pushed;
  }

  /**
   * The smallest case: two pipelines, a budget of 1 and no ledger entry. One
   * task re-queues the request once and leaves the ledger exactly as it found
   * it, so every later dispatch repeats the same step.
   */
  lemma TwoPipelinesBudgetOne(e: Engine, req: Request, env: Env)
    requires |e.pipelines| == 2 && e.config.maxRetryTimes == 1 && Key(req) !in e.ledger
    requires env.download(0).err && env.download(1).err
    ensures Process(e, req, env).ledger == e.ledger
    ensures Process(e, req, env).queue == e.queue + [req]
  {
    var p := Process(e, req, env);
    TwoPipelinesLedger(e.ledger, req, env, e.pipelines);
  }

  /** The ledger-only core of `TwoPipelinesBudgetOne`. */
  lemma TwoPipelinesLedger(l: map<Fingerprint, int>, req: Request, env: Env, pipes: seq<Pipeline>)
    requires |pipes| == 2 && Key(req) !in l
    requires env.download(0).err && env.download(1).err
    ensures Bumps(l, Key(req), 1, RetryCount(1, env, pipes, 0)) == l
    ensures LoopTally(l, req, 1, env, pipes, 0).pushed == [req]
  {
    var h := Key(req);
    var l1 := Bump(l, h, 1);
    assert l1 == l[h := 1];
    var l2 := Bump(l1, h, 1);
    assert l2 == l1 - {h};
    assert l2 == l;
    LoopPushesTwoRetries(l, req, 1, env, pipes);
    assert Requeued(l, req, 1) == [req];
    assert Requeued(l1, req, 1) == [];
    assert pipes[2..] == [];
    assert RetryCount(1, env, pipes, 0) == 2 by {
      assert RetryCount(1, env, pipes[1..][1..], 2) == 0;
      assert RetryCount(1, env, pipes[1..], 1) == 1;
    }
  }

  /** `n` consecutive tasks for `req` under the loop that stops at the first retry. */
  function Redispatch(e: Engine, req: Request, env: Env, n: nat): Engine
    decreases n
  {
    if n == 0 then e else Redispatch(ProcessOnce(e, req, env), req, env, n - 1)
  }

  /** What `n` consecutive failures of `req` push, as seen from the ledger alone. */
  function RequeuedRun(ledger: map<Fingerprint, int>, req: Request, max: int, n: nat): seq<Request>
    decreases n
  {
    if n == 0 then [] else Requeued(ledger, req, max) + RequeuedRun(Bump(ledger, Key(req), max), req, max, n - 1)
  }

  /** `n` consecutive `retry` calls push exactly `RequeuedRun`. */
  lemma {:induction false} RetriesQueue(e: Engine, req: Request, n: nat)
    ensures Retries(e, req, n).queue == e.queue + RequeuedRun(e.ledger, req, e.config.maxRetryTimes, n)
    decreases n
  {
    var max := e.config.maxRetryTimes;
    if n == 0 {
      assert e.queue + [] == e.queue;
    } else {
      var e1 := Retry(e, req);
      RetriesQueue(e1, req, n - 1);
      AppendAssoc(e.queue, Requeued(e.ledger, req, max), RequeuedRun(e1.ledger, req, max, n - 1));
    }
  }

  /** One corrected task whose first download fails, with what it does to the ledger and the queue. */
  lemma OnceFails(e: Engine, req: Request, env: Env) returns (e1: Engine)
    requires e.pipelines != [] && env.download(0).err && e.config.maxRetryTimes > 0
    ensures e1 == ProcessOnce(e, req, env)
    ensures e1.pipelines == e.pipelines && e1.config == e.config
    ensures e1.ledger == Bump(e.ledger, Key(req), e.config.maxRetryTimes)
    ensures e1.queue == e.queue + Requeued(e.ledger, req, e.config.maxRetryTimes)
  {
    e1 := ProcessOnce(e, req, env);
    assert RetriedUnder(e.config.maxRetryTimes, env.download(0));
  }

  /** When every task's first download fails, `n` corrected tasks move the ledger by `n` bumps. */
  lemma {:induction false} RedispatchBumps(e: Engine, req: Request, env: Env, n: nat)
    requires e.pipelines != [] && env.download(0).err && e.config.maxRetryTimes > 0
    ensures Redispatch(e, req, env, n).ledger == Bumps(e.ledger, Key(req), e.config.maxRetryTimes, n)
    decreases n, 1
  {
    if n > 0 {
      RedispatchBumpsStep(e, req, env, n);
    }
  }

  lemma RedispatchBumpsStep(e: Engine, req: Request, env: Env, n: nat)
    requires n > 0
    requires e.pipelines != [] && env.download(0).err && e.config.maxRetryTimes > 0
    ensures Redispatch(e, req, env, n).ledger == Bumps(e.ledger, Key(req), e.config.maxRetryTimes, n)
    decreases n, 0
  {
    var e1 := OnceFails(e, req, env);
    RedispatchBumps(e1, req, env, n - 1);
  }

  /** When every task's first download fails, `n` corrected tasks push exactly `RequeuedRun`. */
  lemma {:induction false} RedispatchQueue(e: Engine, req: Request, env: Env, n: nat)
    requires e.pipelines != [] && env.download(0).err && e.config.maxRetryTimes > 0
    ensures Redispatch(e, req, env, n).queue == e.queue + RequeuedRun(e.ledger, req, e.config.maxRetryTimes, n)
    decreases n, 1
  {
    if n == 0 {
      assert e.queue + [] == e.queue;
    } else {
      RedispatchQueueStep(e, req, env, n);
    }
  }

  lemma RedispatchQueueStep(e: Engine, req: Request, env: Env, n: nat)
    requires n > 0
    requires e.pipelines != [] && env.download(0).err && e.config.maxRetryTimes > 0
    ensures Redispatch(e, req, env, n).queue == e.queue + RequeuedRun(e.ledger, req, e.config.maxRetryTimes, n)
    decreases n, 0
  {
    var max := e.config.maxRetryTimes;
    var e1 := OnceFails(e, req, env);
    RedispatchQueue(e1, req, env, n - 1);
    QueueStep(e.queue, e1.queue, Redispatch(e1, req, env, n - 1).queue, Requeued(e.ledger, req, max),
              RequeuedRun(e1.ledger, req, max, n - 1));
  }

  lemma QueueStep(q: seq<Request>, q1: seq<Request>, q2: seq<Request>, a: seq<Request>, b: seq<Request>)
    requires q1 == q + a && q2 == q1 + b
    ensures q2 == q + (a + b)
  {
    AppendAssoc(q, a, b);
  }

  /**
   * With the loop stopped at the first retry, the budget holds per dispatch:
   * a request whose first download always fails is re-queued by exactly
   * `maxRetryTimes` tasks, the next task drops it, and the ledger ends as it began.
   */
  lemma OnceGivesUpAfterBudget(e: Engine, req: Request, env: Env)
    requires e.pipelines != [] && env.download(0).err
    requires e.config.maxRetryTimes > 0 && Key(req) !in e.ledger
    ensures var e' := Redispatch(e, req, env, e.config.maxRetryTimes + 1);
      && Key(req) !in e'.ledger
      && e'.ledger == e.ledger
      && e'.queue == e.queue + Copies(req, e.config.maxRetryTimes)
  {
    var n := e.config.maxRetryTimes + 1;
    RedispatchBumps(e, req, env, n);
    RedispatchQueue(e, req, env, n);
    RetriesBumps(e, req, n);
    RetriesQueue(e, req, n);
    GiveUpAfterBudget(e, req);
  }

  /**
   * A successful download never touches the ledger, so a request that failed
   * once and then succeeds keeps its ledger entry with count 1.
   */
  lemma LedgerOutlivesSuccess(e: Engine, req: Request, pipe: Pipeline, resp: Response,
                              processer: Option<Response> -> Yield)
    requires Key(req) !in e.ledger && e.config.maxRetryTimes >= 1
    ensures var e2 := RunPipe(Retry(e, req), req, pipe, Fetch(Some(resp), false), processer);
      Key(req) in e2.ledger && e2.ledger[Key(req)] == 1
  {
  }

  // ---------------------------------------------------------------------------
  // Plugin registration and hook order

  /** `AddPlugin` for each plugin of `ps`, in order. */
  function AddPlugins(e: Engine, ps: seq<Plugin>): Engine
    decreases |ps|
  {
    if ps == [] then e else AddPlugins(AddPlugin(e, ps[0]), ps[1..])
  }

  /** `[p]` when `p` belongs to stage `t`, else nothing. */
  function Own(p: Plugin, t: PluginType): seq<Plugin>
  {
    if p.kind == t then [p] else []
  }

  /** Reference reading: the plugins of `ps` whose stage is `t`, in order. */
  function OfKind(ps: seq<Plugin>, t: PluginType): seq<Plugin>
  {
    if ps == [] then [] else Own(ps[0], t) + OfKind(ps[1..], t)
  }

  lemma AddPluginOwn(e: Engine, p: Plugin, t: PluginType)
    ensures Stage(AddPlugin(e, p).plugins, t) == Stage(e.plugins, t) + Own(p, t)
  {
    if p.kind != t {
      assert Stage(e.plugins, t) + [] == Stage(e.plugins, t);
    }
  }

  /**
   * After registering `ps`, stage `t` holds what it held before followed by
   * exactly the plugins of `ps` for stage `t`, in registration order.
   */
  lemma {:induction false} RegistrationOrder(e: Engine, ps: seq<Plugin>, t: PluginType)
    ensures Stage(AddPlugins(e, ps).plugins, t) == Stage(e.plugins, t) + OfKind(ps, t)
    decreases |ps|
  {
    if ps == [] {
      assert Stage(e.plugins, t) + [] == Stage(e.plugins, t);
    } else {
      var e1 := AddPlugin(e, ps[0]);
      assert AddPlugins(e, ps) == AddPlugins(e1, ps[1..]);
      RegistrationOrder(e1, ps[1..], t);
      AddPluginOwn(e, ps[0], t);
      AppendAssoc(Stage(e.plugins, t), Own(ps[0], t), OfKind(ps[1..], t));
    }
  }

  /**
   * On an engine built fresh and given plugins `ps`, `hook(t, arg)` runs
   * exactly the plugins of `ps` registered for `t`, once each, in
   * registration order, and no plugin of another stage.
   */
  lemma HookRunsRegistered(taskName: string, defaults: Config, ps: seq<Plugin>, t: PluginType, arg: HookArg)
    ensures var evs := Firings(Stage(AddPlugins(NewEngine(taskName, defaults), ps).plugins, t), t, arg);
      && |evs| == |OfKind(ps, t)|
      && forall j :: 0 <= j < |evs| ==> evs[j] == Fired(OfKind(ps, t)[j], t, arg) && OfKind(ps, t)[j].kind == t
  {
    var e := NewEngine(taskName, defaults);
    RegistrationOrder(e, ps, t);
    FiringsEach(OfKind(ps, t), t, arg);
    assert Stage(e.plugins, t) == [];
    assert [] + OfKind(ps, t) == OfKind(ps, t);
    OfKindKinds(ps, t);
  }

  lemma {:induction false} OfKindKinds(ps: seq<Plugin>, t: PluginType)
    ensures forall j :: 0 <= j < |OfKind(ps, t)| ==> OfKind(ps, t)[j].kind == t
    decreases |ps|
  {
    if ps != [] {
      OfKindKinds(ps[1..], t);
    }
  }
}
