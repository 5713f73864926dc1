/**
 * The observable history of the engine: every plugin firing, queue push,
 * dispatch, download, processer call and pipeline call, in order.
 */
module Trace {
  import opened Wrappers
  import opened Util
  import opened Common
  import opened Collaborators

  /** The argument a hook hands its plugins: a request, or a batch of records. */
  datatype HookArg = OnRequest(req: Request) | OnItems(items: seq<Items>)

  datatype Event =
    | Fired(plugin: Plugin, stage: PluginType, arg: HookArg)
    | Pushed(req: Request)
    | Dispatched(req: Request)
    | Downloaded(req: Request)
    | Processed(resp: Option<Response>)
    | Piped(pipe: Pipeline, item: Items)

  /**
   * The events of one `hook(t, arg)`: each plugin of `ps` runs exactly once,
   * in list order, with stage `t` and argument `arg`.
   */
  function Firings(ps: seq<Plugin>, t: PluginType, arg: HookArg): (evs: seq<Event>)
    ensures |evs| == |ps|
  {
    if ps == [] then [] else [Fired(ps[0], t, arg)] + Firings(ps[1..], t, arg)
  }

  /** The i-th firing of a hook is plugin `ps[i]`, at stage `t`, with `arg`. */
  lemma {:induction false} FiringsEach(ps: seq<Plugin>, t: PluginType, arg: HookArg)
    ensures forall i :: 0 <= i < |ps| ==> Firings(ps, t, arg)[i] == Fired(ps[i], t, arg)
    decreases |ps|
  {
    if ps != [] {
      FiringsEach(ps[1..], t, arg);
    }
  }

  /** The plugins a plugin map holds for stage `t`, in registration order (none when the stage is absent). */
  function Stage(plugins: map<PluginType, seq<Plugin>>, t: PluginType): seq<Plugin>
  {
    if t in plugins then plugins[t] else []
  }

  /** The events of `hook(t, arg)` on an engine whose plugin map is `plugins`. */
  function HookOf(plugins: map<PluginType, seq<Plugin>>, t: PluginType, arg: HookArg): seq<Event>
  {
    Firings(Stage(plugins, t), t, arg)
  }

  /** Pushing one request: the pre-scheduler hook of `ps` for it, then the push. */
  function EnqueueBlock(ps: seq<Plugin>, r: Request): seq<Event>
  {
    Firings(ps, PreSchedulerType, OnRequest(r)) + [Pushed(r)]
  }

  /** Pushing `rs` one by one, each push preceded by its pre-scheduler hook. */
  function EnqueueEvents(ps: seq<Plugin>, rs: seq<Request>): seq<Event>
  {
    if rs == [] then [] else EnqueueBlock(ps, rs[0]) + EnqueueEvents(ps, rs[1..])
  }

  /** One `pipe.Pipe(i)` per record, in order. */
  function PipeEvents(pipe: Pipeline, items: seq<Items>): seq<Event>
  {
    if items == [] then [] else [Piped(pipe, items[0])] + PipeEvents(pipe, items[1..])
  }

  /**
   * What a stretch of trace did, kind by kind and in order: the requests it
   * pushed, dispatched and downloaded, the responses it processed and the
   * records it piped. Hook firings are not tallied.
   */
  datatype Tally = Tally(
    pushed: seq<Request>,
    dispatched: seq<Request>,
    downloaded: seq<Request>,
    processed: seq<Option<Response>>,
    piped: seq<(Pipeline, Items)>)

  const Nothing := Tally([], [], [], [], [])

  /** Tallies of consecutive stretches add up field by field. */
  function Plus(a: Tally, b: Tally): Tally
  {
    Tally(a.pushed + b.pushed, a.dispatched + b.dispatched, a.downloaded + b.downloaded,
          a.processed + b.processed, a.piped + b.piped)
  }

  function TallyOf(ev: Event): Tally
  {
    match ev
    case Fired(_, _, _) => Nothing
    case Pushed(r) => Nothing.(pushed := [r])
    case Dispatched(r) => Nothing.(dispatched := [r])
    case Downloaded(r) => Nothing.(downloaded := [r])
    case Processed(resp) => Nothing.(processed := [resp])
    case Piped(pipe, item) => Nothing.(piped := [(pipe, item)])
  }

  function Summary(evs: seq<Event>): Tally
  {
    if evs == [] then Nothing else Plus(TallyOf(evs[0]), Summary(evs[1..]))
  }

  lemma PlusAssoc(a: Tally, b: Tally, c: Tally)
    ensures Plus(Plus(a, b), c) == Plus(a, Plus(b, c))
  {
    assert (a.pushed + b.pushed) + c.pushed == a.pushed + (b.pushed + c.pushed);
    assert (a.dispatched + b.dispatched) + c.dispatched == a.dispatched + (b.dispatched + c.dispatched);
    assert (a.downloaded + b.downloaded) + c.downloaded == a.downloaded + (b.downloaded + c.downloaded);
    assert (a.processed + b.processed) + c.processed == a.processed + (b.processed + c.processed);
    assert (a.piped + b.piped) + c.piped == a.piped + (b.piped + c.piped);
  }

  lemma PlusNothing(a: Tally)
    ensures Plus(Nothing, a) == a && Plus(a, Nothing) == a
  {
    assert a.pushed + [] == a.pushed && a.dispatched + [] == a.dispatched;
    assert a.downloaded + [] == a.downloaded && a.processed + [] == a.processed && a.piped + [] == a.piped;
  }

  /** Processing a response, pushing `rs` and piping `ds`, in that order. */
  lemma ProcessingTally(resp: Option<Response>, rs: seq<Request>, ds: seq<(Pipeline, Items)>)
    ensures Plus(Plus(TallyOf(Processed(resp)), Nothing.(pushed := rs)), Nothing.(piped := ds))
         == Nothing.(pushed := rs, processed := [resp], piped := ds)
  {
    assert [] + rs + [] == rs;
    assert [resp] + [] + [] == [resp];
    assert [] + [] + ds == ds;
  }

  /** A download followed by a tally that downloaded nothing. */
  lemma DownloadTally(req: Request, t: Tally)
    requires t.downloaded == []
    ensures Plus(TallyOf(Downloaded(req)), t) == t.(downloaded := [req])
  {
    assert [] + t.pushed == t.pushed && [] + t.dispatched == t.dispatched;
    assert [] + t.processed == t.processed && [] + t.piped == t.piped;
    assert [req] + [] == [req];
  }

  /** The summary of a concatenation is the sum of the summaries. */
  lemma {:induction false} SummaryAppend(a: seq<Event>, b: seq<Event>)
    ensures Summary(a + b) == Plus(Summary(a), Summary(b))
    decreases |a|
  {
    if a == [] {
      assert a + b == b;
      PlusNothing(Summary(b));
    } else {
      SummaryAppend(a[1..], b);
      assert (a + b)[1..] == a[1..] + b;
      assert (a + b)[0] == a[0];
      PlusAssoc(TallyOf(a[0]), Summary(a[1..]), Summary(b));
    }
  }

  /** Hook firings tally to nothing. */
  lemma {:induction false} FiringsSummary(ps: seq<Plugin>, t: PluginType, arg: HookArg)
    ensures Summary(Firings(ps, t, arg)) == Nothing
    decreases |ps|
  {
    if ps != [] {
      FiringsSummary(ps[1..], t, arg);
      PlusNothing(Nothing);
    }
  }

  /** A hook followed by one event tallies as that event alone. */
  lemma HookThen(ps: seq<Plugin>, t: PluginType, arg: HookArg, ev: Event)
    ensures Summary(Firings(ps, t, arg) + [ev]) == TallyOf(ev)
  {
    FiringsSummary(ps, t, arg);
    SummaryAppend(Firings(ps, t, arg), [ev]);
    assert [ev][1..] == [];
    PlusNothing(TallyOf(ev));
  }

  /** Discovered requests are pushed in yield order: enqueueing `rs` tallies as exactly the pushes of `rs`. */
  lemma {:induction false} EnqueueEventsSummary(ps: seq<Plugin>, rs: seq<Request>)
    ensures Summary(EnqueueEvents(ps, rs)) == Nothing.(pushed := rs)
    decreases |rs|
  {
    if rs != [] {
      EnqueueEventsSummary(ps, rs[1..]);
      HookThen(ps, PreSchedulerType, OnRequest(rs[0]), Pushed(rs[0]));
      SummaryAppend(EnqueueBlock(ps, rs[0]), EnqueueEvents(ps, rs[1..]));
      assert [rs[0]] + rs[1..] == rs;
    }
  }

  /** Enqueueing two batches one after the other is enqueueing their concatenation. */
  lemma {:induction false} EnqueueEventsAppend(ps: seq<Plugin>, a: seq<Request>, b: seq<Request>)
    ensures EnqueueEvents(ps, a + b) == EnqueueEvents(ps, a) + EnqueueEvents(ps, b)
    decreases |a|
  {
    if a == [] {
      assert a + b == b;
    } else {
      EnqueueEventsAppend(ps, a[1..], b);
      assert (a + b)[1..] == a[1..] + b;
      var blk, rest := EnqueueBlock(ps, a[0]), EnqueueEvents(ps, a[1..]);
      assert EnqueueEvents(ps, a + b) == blk + (rest + EnqueueEvents(ps, b));
      assert EnqueueEvents(ps, a) == blk + rest;
    }
  }

  /**
   * Each push is immediately preceded by one complete pre-scheduler hook for
   * the same request: the trace splits around the j-th push as
   * (earlier requests) ++ hook(rs[j]) ++ push(rs[j]) ++ (later requests).
   */
  lemma EnqueueEventsSplit(ps: seq<Plugin>, rs: seq<Request>, j: nat)
    requires j < |rs|
    ensures EnqueueEvents(ps, rs)
         == EnqueueEvents(ps, rs[..j]) + EnqueueBlock(ps, rs[j]) + EnqueueEvents(ps, rs[j + 1..])
  {
    assert rs == rs[..j] + ([rs[j]] + rs[j + 1..]);
    EnqueueEventsAppend(ps, rs[..j], [rs[j]] + rs[j + 1..]);
    assert ([rs[j]] + rs[j + 1..])[1..] == rs[j + 1..];
  }

  /** Concatenation is associative. */
  lemma AppendAssoc<T>(a: seq<T>, b: seq<T>, c: seq<T>)
    ensures (a + b) + c == a + (b + c)
  {
  }

  /** `n` copies of `x`. */
  function Copies<T>(x: T, n: nat): (s: seq<T>)
    ensures |s| == n && forall i :: 0 <= i < n ==> s[i] == x
  {
    seq(n, _ => x)
  }

  lemma CopiesCons<T>(x: T, n: nat)
    requires n > 0
    ensures Copies(x, n) == [x] + Copies(x, n - 1)
  {
  }

  /** The pairs `(pipe, item)` for each record, in order. */
  function Deliveries(pipe: Pipeline, items: seq<Items>): (ds: seq<(Pipeline, Items)>)
    ensures |ds| == |items| && forall i :: 0 <= i < |items| ==> ds[i] == (pipe, items[i])
  {
    seq(|items|, i requires 0 <= i < |items| => (pipe, items[i]))
  }

  /** Every record goes to `pipe` once, in order, and nothing else is tallied. */
  lemma {:induction false} PipeEventsSummary(pipe: Pipeline, items: seq<Items>)
    ensures Summary(PipeEvents(pipe, items)) == Nothing.(piped := Deliveries(pipe, items))
    decreases |items|
  {
    if items != [] {
      PipeEventsSummary(pipe, items[1..]);
      assert Deliveries(pipe, items) == [(pipe, items[0])] + Deliveries(pipe, items[1..]);
    }
  }

  /** The `|h|` events just before position `j` of `evs` are exactly `h`. */
  predicate Preceded(evs: seq<Event>, j: nat, h: seq<Event>)
    requires j < |evs|
  {
    |h| <= j && evs[j - |h|..j] == h
  }

  /**
   * The event at position `j` of a task's trace for request `req` comes right
   * after one complete firing of its stage's hook: a download after the
   * pre-downloader hook for the request, a processer call after the
   * pre-processer hook for `req`, a push after the pre-scheduler hook for the
   * pushed request. Other events carry no such obligation.
   */
  predicate Heralded(plugins: map<PluginType, seq<Plugin>>, req: Request, evs: seq<Event>, j: nat)
    requires j < |evs|
  {
    match evs[j]
    case Downloaded(r) => Preceded(evs, j, HookOf(plugins, PreDownloaderType, OnRequest(r)))
    case Processed(_) => Preceded(evs, j, HookOf(plugins, PreProcesserType, OnRequest(req)))
    case Pushed(r) => Preceded(evs, j, HookOf(plugins, PreSchedulerType, OnRequest(r)))
    case _ => true
  }

  /** Every download, processer call and push of `evs` is heralded by its hook. */
  predicate Announced(plugins: map<PluginType, seq<Plugin>>, req: Request, evs: seq<Event>)
  {
    forall j :: 0 <= j < |evs| ==> Heralded(plugins, req, evs, j)
  }

  /** Announced stretches concatenate to an announced stretch. */
  lemma AnnouncedAppend(plugins: map<PluginType, seq<Plugin>>, req: Request, a: seq<Event>, b: seq<Event>)
    requires Announced(plugins, req, a) && Announced(plugins, req, b)
    ensures Announced(plugins, req, a + b)
  {
    var ab := a + b;
    forall j | 0 <= j < |ab| ensures Heralded(plugins, req, ab, j) {
      if j < |a| {
        assert ab[j] == a[j];
        assert Heralded(plugins, req, a, j);
        WindowLeft(a, b, j);
      } else {
        assert ab[j] == b[j - |a|];
        assert Heralded(plugins, req, b, j - |a|);
        WindowRight(a, b, j);
      }
    }
  }

  lemma WindowLeft(a: seq<Event>, b: seq<Event>, j: nat)
    requires j < |a|
    ensures forall i :: 0 <= i <= j ==> (a + b)[i..j] == a[i..j]
  {
  }

  lemma WindowRight(a: seq<Event>, b: seq<Event>, j: nat)
    requires |a| <= j < |a| + |b|
    ensures forall i :: |a| <= i <= j ==> (a + b)[i..j] == b[i - |a|..j - |a|]
  {
  }

  /** Hook firings alone carry no obligation. */
  lemma AnnouncedFirings(plugins: map<PluginType, seq<Plugin>>, req: Request, ps: seq<Plugin>, t: PluginType, arg: HookArg)
    ensures Announced(plugins, req, Firings(ps, t, arg))
  {
    FiringsEach(ps, t, arg);
  }

  /** A stage's hook followed by the event it heralds. */
  lemma AnnouncedBlock(plugins: map<PluginType, seq<Plugin>>, req: Request, t: PluginType, arg: HookArg, ev: Event)
    requires Heralded(plugins, req, HookOf(plugins, t, arg) + [ev], |HookOf(plugins, t, arg)|)
    ensures Announced(plugins, req, HookOf(plugins, t, arg) + [ev])
  {
    var h := HookOf(plugins, t, arg);
    AnnouncedFirings(plugins, req, Stage(plugins, t), t, arg);
    forall j | 0 <= j < |h + [ev]| ensures Heralded(plugins, req, h + [ev], j) {
      if j < |h| {
        assert (h + [ev])[j] == h[j];
        assert Heralded(plugins, req, h, j);
      }
    }
  }

  /** Enqueueing a batch: every push right after its own pre-scheduler hook. */
  lemma {:induction false} AnnouncedEnqueue(plugins: map<PluginType, seq<Plugin>>, req: Request, rs: seq<Request>)
    ensures Announced(plugins, req, EnqueueEvents(Stage(plugins, PreSchedulerType), rs))
    decreases |rs|
  {
    if rs != [] {
      var h := HookOf(plugins, PreSchedulerType, OnRequest(rs[0]));
      assert (h + [Pushed(rs[0])])[|h|] == Pushed(rs[0]);
      assert (h + [Pushed(rs[0])])[0..|h|] == h;
      AnnouncedBlock(plugins, req, PreSchedulerType, OnRequest(rs[0]), Pushed(rs[0]));
      AnnouncedEnqueue(plugins, req, rs[1..]);
      AnnouncedAppend(plugins, req, h + [Pushed(rs[0])], EnqueueEvents(Stage(plugins, PreSchedulerType), rs[1..]));
    }
  }

  /** Pipe calls carry no obligation. */
  lemma {:induction false} AnnouncedPipe(plugins: map<PluginType, seq<Plugin>>, req: Request, pipe: Pipeline, items: seq<Items>)
    ensures Announced(plugins, req, PipeEvents(pipe, items))
    decreases |items|
  {
    if items != [] {
      AnnouncedPipe(plugins, req, pipe, items[1..]);
      assert Announced(plugins, req, [Piped(pipe, items[0])]);
      AnnouncedAppend(plugins, req, [Piped(pipe, items[0])], PipeEvents(pipe, items[1..]));
    }
  }
}
