/** The multi-worker loop of the executor (shutils/dag/executor.py) as a transition system.

    Tasks return the context they were given; router tasks pick some of their children and mask the rest before
    they return. Nothing here retries, throttles, freezes or creates child contexts. */
module Executors {
  import opened Graphs
  import opened TaskStates
  import opened Routing

  type Ctx = nat

  /** How far `SinkNode.call` has got with destroying its context. */
  datatype SinkStage = Fresh | Marked | Counted

  /** Where a worker stands in its loop. */
  datatype Worker =
    | Checking                                  // about to read the runtime counter
    | Waiting                                   // read a positive counter, waits for a context
    | Dropping(ctx: Ctx)                        // destroys a context without available tasks
    | Batch(ctx: Ctx, batch: set<Task>, todo: set<Task>, inflight: set<Task>, stage: SinkStage)
    | Stopped                                   // left the loop through StopContext

  /** A context: its task state, its destroyed flag and, for the statements below, which tasks were
      started, finished and masked on it. */
  datatype CtxState = CtxState(ts: TState, alive: bool, started: set<Task>, finished: set<Task>, masked: set<Task>)

  /** A task was entered, or it returned, having masked `mask`. */
  datatype Event = Start(ctx: Ctx, task: Task) | Done(ctx: Ctx, task: Task, mask: set<Task>)

  datatype State = State(
    ctxs: map<Ctx, CtxState>,
    queue: seq<Ctx>,
    workers: seq<Worker>,
    counter: int,
    outputs: seq<Ctx>,       // contexts turned into an OutputContext, in the order of emission
    trace: seq<Event>)

  /** `limit` is task_worker_num; 0 means no limit. `polls` says that context_queue_timeout is a number: without one
      a get waits for ever. */
  datatype Config = Config(g: Graph, source: Task, sink: Task, routers: set<Task>, limit: nat, polls: bool)

  datatype Step =
    | Check(w: nat) | Timeout(w: nat) | Take(w: nat, i: nat) | DropCount(w: nat)
    | Begin(w: nat, task: Task) | SinkMark(w: nat) | SinkCount(w: nat) | Finish(w: nat, task: Task, chosen: set<Task>)
    | EndBatch(w: nat)

  // ---------------------------------------------------------------- transitions

  /** What a task may pick: a router at least one of its children, any other task nothing. */
  predicate MayPick(cfg: Config, t: Task, chosen: set<Task>) {
    if t in cfg.routers then t in cfg.g.down && chosen <= cfg.g.down[t] && chosen != {} else chosen == {}
  }

  /** What a task masks by picking. */
  ghost function MaskBy(cfg: Config, t: Task, chosen: set<Task>): set<Task>
    requires cfg.g.Valid()
  {
    if t in cfg.routers && t in cfg.g.nodes then MaskOf(cfg.g, t, chosen) else {}
  }

  predicate Enabled(cfg: Config, s: State, step: Step) {
    step.w < |s.workers| &&
    var k := s.workers[step.w];
    match step
    case Check(_) => k.Checking?
    case Timeout(_) => k.Waiting? && cfg.polls
    case Take(_, i) => k.Waiting? && i < |s.queue| && s.queue[i] in s.ctxs
    case DropCount(_) => k.Dropping?
    case Begin(_, t) => k.Batch? && k.ctx in s.ctxs && t in k.todo && (cfg.limit == 0 || |k.inflight| < cfg.limit)
    case SinkMark(_) => k.Batch? && k.ctx in s.ctxs && cfg.sink in k.inflight && k.stage.Fresh?
    case SinkCount(_) => k.Batch? && k.stage.Marked?
    case Finish(_, t, chosen) =>
      k.Batch? && k.ctx in s.ctxs && t in k.inflight && (t == cfg.sink ==> k.stage.Counted?) && MayPick(cfg, t, chosen)
    case EndBatch(_) => k.Batch? && k.todo == {} && k.inflight == {}
  }

  function SetWorker(s: State, w: nat, k: Worker): State
    requires w < |s.workers|
  {
    s.(workers := s.workers[w := k])
  }

  /** The state after an enabled step. */
  ghost function Next(cfg: Config, s: State, step: Step): State
    requires cfg.g.Valid() && Enabled(cfg, s, step)
  {
    var w := step.w;
    var k := s.workers[w];
    match step
    case Check(_) => SetWorker(s, w, if s.counter > 0 then Waiting else Stopped)
    case Timeout(_) => SetWorker(s, w, Checking)
    case Take(_, i) => AfterTake(SetWorker(s, w, k).(queue := s.queue[..i] + s.queue[i + 1..]), w, s.queue[i])
    case DropCount(_) => SetWorker(s, w, Checking).(counter := s.counter - 1)
    case Begin(_, t) =>
      var c := s.ctxs[k.ctx];
      SetWorker(s, w, k.(todo := k.todo - {t}, inflight := k.inflight + {t}))
        .(ctxs := s.ctxs[k.ctx := c.(started := c.started + {t})], trace := s.trace + [Start(k.ctx, t)])
    case SinkMark(_) =>
      var c := s.ctxs[k.ctx];
      SetWorker(s, w, k.(stage := if c.alive then Marked else Counted)).(ctxs := s.ctxs[k.ctx := c.(alive := false)])
    case SinkCount(_) => SetWorker(s, w, k.(stage := Counted)).(counter := s.counter - 1)
    case Finish(_, t, chosen) =>
      SetWorker(s, w, k.(inflight := k.inflight - {t}))
        .(ctxs := s.ctxs[k.ctx := AfterTask(cfg, s.ctxs[k.ctx], t, chosen)],
          trace := s.trace + [Done(k.ctx, t, MaskBy(cfg, t, chosen))])
    case EndBatch(_) =>
      SetWorker(s, w, Checking)
        .(outputs := s.outputs + (if cfg.sink in k.batch then [k.ctx] else []),
          queue := (if k.batch - {cfg.sink} != {} then [k.ctx] else []) + s.queue)
  }

  /** A context on which task t has masked and returned. Nothing looks at the task state before the batch is over, so
      the order in which tasks of a batch mask and complete does not matter. */
  ghost function AfterTask(cfg: Config, c: CtxState, t: Task, chosen: set<Task>): CtxState
    requires cfg.g.Valid()
  {
    var mask := MaskBy(cfg, t, chosen);
    // the sink completes itself on the OutputContext it created, not on its input
    var ts := if t == cfg.sink || t !in cfg.g.nodes then c.ts else With(cfg.g, c.ts, mask + {t});
    c.(ts := ts, finished := c.finished + {t}, masked := c.masked + mask)
  }

  /** What a worker does with the context it was handed. */
  function AfterTake(s: State, w: nat, ctx: Ctx): State
    requires w < |s.workers| && ctx in s.ctxs
  {
    var c := s.ctxs[ctx];
    if !c.alive then SetWorker(s, w, Checking)
    else if c.ts.available == {} then SetWorker(s, w, Dropping(ctx)).(ctxs := s.ctxs[ctx := c.(alive := false)])
    else SetWorker(s, w, Batch(ctx, c.ts.available, c.ts.available, {}, Fresh))
  }

  ghost function InitCtx(cfg: Config): CtxState
    requires cfg.g.Valid() && cfg.source in cfg.g.nodes
  {
    CtxState(With(cfg.g, TState({}, {}), {cfg.source}), true, {}, {}, {})
  }

  /** The state `run` sets up: every input has the source completed and is queued. */
  ghost function Init(cfg: Config, inputs: seq<Ctx>, workers: nat): State
    requires cfg.g.Valid() && cfg.source in cfg.g.nodes
  {
    State(map c | c in inputs :: InitCtx(cfg), inputs, seq(workers, i => Checking), |inputs|, [], [])
  }

  ghost predicate IsRun(cfg: Config, s: State, steps: seq<Step>)
    requires cfg.g.Valid()
    decreases |steps|
  {
    steps == [] || (Enabled(cfg, s, steps[0]) && IsRun(cfg, Next(cfg, s, steps[0]), steps[1..]))
  }

  ghost function After(cfg: Config, s: State, steps: seq<Step>): State
    requires cfg.g.Valid() && IsRun(cfg, s, steps)
    decreases |steps|
  {
    if steps == [] then s else After(cfg, Next(cfg, s, steps[0]), steps[1..])
  }

  // ---------------------------------------------------------------- invariant

  predicate Holds(k: Worker, c: Ctx) {
    (k.Batch? || k.Dropping?) && k.ctx == c
  }

  ghost predicate GoodConfig(cfg: Config) {
    Built(cfg.g, cfg.source, cfg.sink) && cfg.source !in cfg.routers && cfg.sink !in cfg.routers
  }

  /** The task state of an input context is exact, and what is completed was finished or masked; tasks were started
      only after their upstream tasks were. */
  ghost predicate TasksOk(cfg: Config, c: CtxState)
    requires GoodConfig(cfg)
  {
    && Exact(cfg.g, c.ts) && c.ts.completed <= cfg.g.nodes && cfg.sink !in c.ts.completed
    && c.ts.completed == {cfg.source} + (c.finished - {cfg.sink}) + c.masked
    && (forall t :: t in c.started ==> t in cfg.g.nodes && t != cfg.source && cfg.g.up[t] <= c.ts.completed)
  }

  /** A context that waits for its next batch. */
  ghost predicate QueuedOk(cfg: Config, c: CtxState)
    requires GoodConfig(cfg)
  {
    TasksOk(cfg, c) && c.alive && c.started == c.finished && cfg.sink !in c.finished
  }

  ghost predicate OutputOk(cfg: Config, c: CtxState)
    requires GoodConfig(cfg)
  {
    TasksOk(cfg, c) && !c.alive && c.started == c.finished && cfg.sink in c.finished
  }

  ghost predicate BatchOk(cfg: Config, c: CtxState, k: Worker)
    requires GoodConfig(cfg) && k.Batch?
  {
    && TasksOk(cfg, c)
    && k.batch != {} && k.todo + k.inflight <= k.batch && k.todo !! k.inflight
    && (forall t :: t in k.batch ==> t in cfg.g.nodes && t != cfg.source && cfg.g.up[t] <= c.ts.completed)
    && k.batch - k.todo - k.inflight <= c.finished
    && c.started == c.finished + k.inflight && c.finished !! k.inflight && c.finished !! k.todo
    && (c.alive <==> k.stage == Fresh)
    && SinkOk(cfg, c, k)
  }

  /** The sink is destroying its context only while it runs; it shares a batch only where something was masked. */
  ghost predicate SinkOk(cfg: Config, c: CtxState, k: Worker)
    requires k.Batch?
  {
    && (k.stage != Fresh ==> cfg.sink in k.batch && cfg.sink !in k.todo)
    && (k.stage == Marked ==> cfg.sink in k.inflight)
    && (cfg.sink in c.finished ==> k.stage == Counted)
    && (cfg.sink in k.batch && k.batch != {cfg.sink} ==> c.masked != {})
  }

  ghost predicate Owned(inputs: seq<Ctx>, s: State) {
    && s.ctxs.Keys == Elems(inputs) && Distinct(inputs)
    && Distinct(s.queue) && Distinct(s.outputs)
    && Elems(s.queue) <= s.ctxs.Keys && Elems(s.outputs) <= s.ctxs.Keys
    && (forall w :: 0 <= w < |s.workers| && s.workers[w].Batch? ==>
          s.workers[w].ctx in s.ctxs && s.workers[w].ctx !in s.queue && s.workers[w].ctx !in s.outputs)
    && (forall v, w :: 0 <= v < w < |s.workers| && s.workers[v].Batch? && s.workers[w].Batch? ==>
          s.workers[v].ctx != s.workers[w].ctx)
    && (forall c :: c in s.ctxs ==>
          c in s.queue || c in s.outputs || exists w :: 0 <= w < |s.workers| && Holds(s.workers[w], c))
  }

  ghost function Live(s: State): set<Ctx> {
    set c | c in s.ctxs && s.ctxs[c].alive
  }

  /** Workers between marking their context destroyed and decreasing the counter. */
  ghost function Owing(s: State): set<nat> {
    set w | 0 <= w < |s.workers| && s.workers[w].Batch? && s.workers[w].stage == Marked
  }

  ghost predicate Counts(s: State) {
    && s.counter == |Live(s)| + |Owing(s)|
    && (forall w :: 0 <= w < |s.workers| && s.workers[w].Stopped? ==> s.counter == 0)
  }

  ghost predicate DoneIn(past: seq<Event>, c: Ctx, t: Task) {
    exists mask :: Done(c, t, mask) in past
  }

  ghost predicate MaskedIn(past: seq<Event>, c: Ctx, t: Task) {
    exists r, mask :: Done(c, r, mask) in past && t in mask
  }

  /** The upstream tasks of the task started by `e`, other than the source, were all done or masked in `past`. */
  ghost predicate UpstreamDone(cfg: Config, e: Event, past: seq<Event>)
    requires GoodConfig(cfg)
  {
    && e.task in cfg.g.nodes
    && forall u :: u in cfg.g.up[e.task] && u != cfg.source ==> DoneIn(past, e.ctx, u) || MaskedIn(past, e.ctx, u)
  }

  predicate SameMoment(e: Event, f: Event) {
    e.Start? == f.Start? && e.ctx == f.ctx && e.task == f.task
  }

  /** No task is started twice on a context, and none returns twice. */
  ghost predicate Once(trace: seq<Event>) {
    forall i, j :: 0 <= i < j < |trace| ==> !SameMoment(trace[i], trace[j])
  }

  ghost predicate Recorded(s: State) {
    && (forall c, t :: Start(c, t) in s.trace <==> c in s.ctxs && t in s.ctxs[c].started)
    && (forall c, t, m :: Done(c, t, m) in s.trace ==> c in s.ctxs && t in s.ctxs[c].finished)
    && (forall c, t :: c in s.ctxs && t in s.ctxs[c].finished ==> DoneIn(s.trace, c, t))
    && (forall c, t :: c in s.ctxs ==> (t in s.ctxs[c].masked <==> MaskedIn(s.trace, c, t)))
  }

  /** The trace records each start and each return once, and what was masked; what comes before a task comes first. */
  ghost predicate TraceOk(cfg: Config, s: State)
    requires GoodConfig(cfg)
  {
    && Once(s.trace) && Recorded(s)
    && (forall i :: 0 <= i < |s.trace| && s.trace[i].Start? ==> UpstreamDone(cfg, s.trace[i], s.trace[..i]))
  }

  /** A queued context waits for a batch, or was emitted by a batch in which the sink was not alone. */
  ghost predicate InLine(cfg: Config, s: State, c: Ctx)
    requires GoodConfig(cfg)
  {
    && c in s.ctxs
    && if s.ctxs[c].alive then QueuedOk(cfg, s.ctxs[c]) else c in s.outputs && s.ctxs[c].masked != {}
  }

  ghost predicate PlacesOk(cfg: Config, s: State)
    requires GoodConfig(cfg)
  {
    && (forall c :: c in s.queue ==> InLine(cfg, s, c))
    && (forall c :: c in s.outputs ==> c in s.ctxs && OutputOk(cfg, s.ctxs[c]))
    && (forall w :: 0 <= w < |s.workers| ==> !s.workers[w].Dropping?)
    && (forall w :: 0 <= w < |s.workers| && s.workers[w].Batch? ==>
          s.workers[w].ctx in s.ctxs && BatchOk(cfg, s.ctxs[s.workers[w].ctx], s.workers[w]))
  }

  ghost predicate Inv(cfg: Config, inputs: seq<Ctx>, s: State) {
    GoodConfig(cfg) && Owned(inputs, s) && PlacesOk(cfg, s) && Counts(s) && TraceOk(cfg, s)
  }

  // ---------------------------------------------------------------- preservation

  lemma {:induction false} DistinctCard<T>(l: seq<T>)
    requires Distinct(l)
    ensures |Elems(l)| == |l|
  {
    if l != [] {
      DistinctCard(l[1..]);
      assert l == [l[0]] + l[1..];
      assert l[0] !in l[1..];
      assert Elems(l) == {l[0]} + Elems(l[1..]);
    }
  }

  lemma InitCtxOk(cfg: Config)
    requires GoodConfig(cfg)
    ensures QueuedOk(cfg, InitCtx(cfg)) && InitCtx(cfg).ts.completed == {cfg.source}
    ensures InitCtx(cfg).started == InitCtx(cfg).finished == InitCtx(cfg).masked == {}
  {
    assert Root(cfg.g, cfg.source);
  }

  lemma InitInv(cfg: Config, inputs: seq<Ctx>, workers: nat)
    requires GoodConfig(cfg) && Distinct(inputs)
    ensures Inv(cfg, inputs, Init(cfg, inputs, workers))
  {
    var s := Init(cfg, inputs, workers);
    InitCtxOk(cfg);
    hide GoodConfig, QueuedOk, TasksOk;
    assert Live(s) == Elems(inputs);
    DistinctCard(inputs);
    assert Owing(s) == {};
  }

  // ---- what the parts of the invariant say about one worker

  /** Worker w holds a context and its batch is in order. */
  ghost predicate AtBatch(cfg: Config, s: State, w: nat) {
    && GoodConfig(cfg) && w < |s.workers| && s.workers[w].Batch? && s.workers[w].ctx in s.ctxs
    && BatchOk(cfg, s.ctxs[s.workers[w].ctx], s.workers[w])
  }

  lemma BatchAt(cfg: Config, inputs: seq<Ctx>, s: State, w: nat)
    requires Inv(cfg, inputs, s) && w < |s.workers| && s.workers[w].Batch?
    ensures AtBatch(cfg, s, w)
  {
    hide GoodConfig, BatchOk, QueuedOk, OutputOk, TasksOk;
  }

  // ---- keeping the parts of the invariant

  /** Holders are found again after worker w changed, if it holds what it held. */
  lemma SomewhereKept(inputs: seq<Ctx>, s: State, s': State, w: nat)
    requires Owned(inputs, s) && w < |s.workers| == |s'.workers|
    requires s'.ctxs.Keys == s.ctxs.Keys && Elems(s'.queue) >= Elems(s.queue) && Elems(s'.outputs) >= Elems(s.outputs)
    requires s'.workers == s.workers[w := s'.workers[w]]
    requires forall c :: Holds(s.workers[w], c) ==> Holds(s'.workers[w], c) || c in Elems(s'.queue) || c in Elems(s'.outputs)
    ensures forall c :: c in s'.ctxs ==>
              c in s'.queue || c in s'.outputs || exists v :: 0 <= v < |s'.workers| && Holds(s'.workers[v], c)
  {
    forall c | c in s'.ctxs
      ensures c in s'.queue || c in s'.outputs || exists v :: 0 <= v < |s'.workers| && Holds(s'.workers[v], c)
    {
      if c in Elems(s.queue) || c in Elems(s.outputs) {
        assert c in Elems(s'.queue) || c in Elems(s'.outputs);
      } else {
        var v :| 0 <= v < |s.workers| && Holds(s.workers[v], c);
        assert v != w ==> Holds(s'.workers[v], c);
      }
    }
  }

  /** Worker w went on with its batch: only it and its context changed. */
  ghost predicate BatchMove(s: State, s': State, w: nat) {
    && w < |s.workers| == |s'.workers| && s.workers[w].Batch? && s'.workers[w].Batch?
    && s'.workers == s.workers[w := s'.workers[w]] && s'.workers[w].ctx == s.workers[w].ctx
    && s.workers[w].ctx in s.ctxs && s.workers[w].ctx in s'.ctxs
    && s'.ctxs == s.ctxs[s.workers[w].ctx := s'.ctxs[s.workers[w].ctx]]
    && s'.queue == s.queue && s'.outputs == s.outputs
  }

  lemma BatchOwned(inputs: seq<Ctx>, s: State, s': State, w: nat)
    requires Owned(inputs, s) && BatchMove(s, s', w)
    ensures Owned(inputs, s')
  {
    assert s'.ctxs.Keys == s.ctxs.Keys;
    SomewhereKept(inputs, s, s', w);
  }

  lemma BatchPlaces(cfg: Config, inputs: seq<Ctx>, s: State, s': State, w: nat)
    requires GoodConfig(cfg) && Owned(inputs, s) && PlacesOk(cfg, s) && BatchMove(s, s', w)
    requires BatchOk(cfg, s'.ctxs[s.workers[w].ctx], s'.workers[w])
    ensures PlacesOk(cfg, s')
  {
    hide TasksOk, QueuedOk, OutputOk, BatchOk, GoodConfig;
  }

  lemma CountsKept(s: State, s': State)
    requires Counts(s) && s'.counter == s.counter && Live(s') == Live(s) && Owing(s') == Owing(s)
    requires forall w :: 0 <= w < |s'.workers| && s'.workers[w].Stopped? ==>
               s.counter == 0 || exists v :: 0 <= v < |s.workers| && s.workers[v].Stopped?
    ensures Counts(s')
  {
  }

  /** A batch worker changed neither the destroyed flag of its context nor a pending decrease. */
  lemma BatchCounts(s: State, s': State, w: nat)
    requires Counts(s) && s'.counter == s.counter && BatchMove(s, s', w)
    requires s'.workers[w].stage == Marked <==> s.workers[w].stage == Marked
    requires s'.ctxs[s.workers[w].ctx].alive == s.ctxs[s.workers[w].ctx].alive
    ensures Counts(s')
  {
    assert Live(s') == Live(s) && Owing(s') == Owing(s);
    CountsKept(s, s');
  }

  /** Worker w entered or left a batch without owing a decrease. */
  lemma PlainCounts(s: State, s': State, w: nat)
    requires Counts(s) && s'.counter == s.counter && w < |s.workers| == |s'.workers| && s'.ctxs == s.ctxs
    requires s'.workers == s.workers[w := s'.workers[w]] && !s'.workers[w].Stopped?
    requires s.workers[w].Batch? ==> s.workers[w].stage != Marked
    requires s'.workers[w].Batch? ==> s'.workers[w].stage != Marked
    ensures Counts(s')
  {
    assert Live(s) == Live(s') && Owing(s) == Owing(s');
    CountsKept(s, s');
  }

  /** Marking the context destroyed leaves the counter to be decreased. */
  lemma MarkCounts(s: State, s': State, w: nat)
    requires Counts(s) && s'.counter == s.counter && BatchMove(s, s', w)
    requires s.workers[w].stage == Fresh && s'.workers[w].stage == Marked
    requires s.ctxs[s.workers[w].ctx].alive && !s'.ctxs[s.workers[w].ctx].alive
    ensures Counts(s')
  {
    var x := s.workers[w].ctx;
    assert Live(s) == Live(s') + {x} && x !in Live(s');
    assert Owing(s') == Owing(s) + {w} && w !in Owing(s);
  }

  lemma PaidCounts(s: State, s': State, w: nat)
    requires Counts(s) && s'.counter == s.counter - 1 && BatchMove(s, s', w)
    requires s.workers[w].stage == Marked && s'.workers[w].stage == Counted
    requires s.ctxs[s.workers[w].ctx].alive == s'.ctxs[s.workers[w].ctx].alive
    ensures Counts(s')
  {
    OnePaid(s, s', w);
    assert s.counter > 0;
    BatchStops(s, s', w);
    hide Live, Owing, BatchMove;
  }

  lemma OnePaid(s: State, s': State, w: nat)
    requires BatchMove(s, s', w) && s.workers[w].stage == Marked && s'.workers[w].stage == Counted
    requires s.ctxs[s.workers[w].ctx].alive == s'.ctxs[s.workers[w].ctx].alive
    ensures Live(s) == Live(s') && |Owing(s)| == |Owing(s')| + 1
  {
    assert Live(s) == Live(s');
    assert Owing(s) == Owing(s') + {w} && w !in Owing(s');
  }

  /** Nobody leaves while a batch goes on. */
  lemma BatchStops(s: State, s': State, w: nat)
    requires BatchMove(s, s', w)
    ensures |s'.workers| == |s.workers|
    ensures forall v :: 0 <= v < |s'.workers| && s'.workers[v].Stopped? ==> s.workers[v].Stopped?
  {
  }

  /** Event e is new, and its context changed by it alone. */
  ghost predicate Recording(s: State, s': State, e: Event) {
    && s'.trace == s.trace + [e] && e.ctx in s.ctxs && s'.ctxs.Keys == s.ctxs.Keys
    && (forall c :: c in s.ctxs && c != e.ctx ==> s'.ctxs[c] == s.ctxs[c])
    && var c, c' := s.ctxs[e.ctx], s'.ctxs[e.ctx];
       match e
       case Start(_, t) => t !in c.started && c'.started == c.started + {t} && c'.finished == c.finished && c'.masked == c.masked
       case Done(_, t, mask) =>
         t !in c.finished && c'.started == c.started && c'.finished == c.finished + {t} && c'.masked == c.masked + mask
  }

  lemma OnceAppend(s: State, s': State, e: Event)
    requires Once(s.trace) && Recorded(s) && Recording(s, s', e)
    ensures Once(s'.trace)
  {
    forall f | f in s.trace ensures !SameMoment(f, e) {
      if f.Start? { assert Start(f.ctx, f.task) in s.trace; } else { assert Done(f.ctx, f.task, f.mask) in s.trace; }
    }
    hide Recorded, Recording, SameMoment;
    assert s'.trace == s.trace + [e];
  }

  lemma DoneInAppend(trace: seq<Event>, e: Event, c: Ctx, t: Task)
    ensures DoneIn(trace + [e], c, t) <==> DoneIn(trace, c, t) || (e.Done? && e.ctx == c && e.task == t)
    ensures MaskedIn(trace + [e], c, t) <==> MaskedIn(trace, c, t) || (e.Done? && e.ctx == c && t in e.mask)
  {
    var l := trace + [e];
    assert e in l && forall f :: f in trace ==> f in l;
    if e.Done? { assert Done(e.ctx, e.task, e.mask) in l; }
    if DoneIn(trace, c, t) {
      var m :| Done(c, t, m) in trace;
      assert Done(c, t, m) in l;
    }
    if MaskedIn(trace, c, t) {
      var r, m :| Done(c, r, m) in trace && t in m;
      assert Done(c, r, m) in l;
    }
  }

  lemma RecordedAppend(s: State, s': State, e: Event)
    requires Recorded(s) && Recording(s, s', e)
    ensures Recorded(s')
  {
    forall c, t ensures DoneIn(s'.trace, c, t) <==> DoneIn(s.trace, c, t) || (e.Done? && e.ctx == c && e.task == t) {
      DoneInAppend(s.trace, e, c, t);
    }
    forall c, t ensures MaskedIn(s'.trace, c, t) <==> MaskedIn(s.trace, c, t) || (e.Done? && e.ctx == c && t in e.mask) {
      DoneInAppend(s.trace, e, c, t);
    }
    hide DoneIn, MaskedIn;
  }

  lemma TraceAppend(cfg: Config, s: State, s': State, e: Event)
    requires GoodConfig(cfg) && TraceOk(cfg, s) && Recording(s, s', e)
    requires e.Start? ==> UpstreamDone(cfg, e, s.trace)
    ensures TraceOk(cfg, s')
  {
    OnceAppend(s, s', e);
    RecordedAppend(s, s', e);
    hide GoodConfig, UpstreamDone, Once, Recorded;
    forall i | 0 <= i < |s'.trace| && s'.trace[i].Start?
      ensures UpstreamDone(cfg, s'.trace[i], s'.trace[..i])
    {
      if i < |s.trace| {
        assert s'.trace[..i] == s.trace[..i];
      } else {
        assert s'.trace[..i] == s.trace;
      }
    }
  }

  lemma TraceSame(cfg: Config, s: State, s': State)
    requires GoodConfig(cfg) && TraceOk(cfg, s) && s'.trace == s.trace && s'.ctxs.Keys == s.ctxs.Keys
    requires forall c :: c in s.ctxs ==>
               s'.ctxs[c].started == s.ctxs[c].started && s'.ctxs[c].finished == s.ctxs[c].finished && s'.ctxs[c].masked == s.ctxs[c].masked
    ensures TraceOk(cfg, s')
  {
    hide GoodConfig, UpstreamDone, DoneIn, MaskedIn, Once;
  }

  // ---- the steps

  /** The four steps inside a batch. */
  lemma InBatch(cfg: Config, inputs: seq<Ctx>, s: State, step: Step)
    requires Inv(cfg, inputs, s) && Enabled(cfg, s, step)
    requires step.Begin? || step.SinkMark? || step.SinkCount? || step.Finish?
    ensures BatchMove(s, Next(cfg, s, step), step.w) && AtBatch(cfg, s, step.w)
  {
    BatchAt(cfg, inputs, s, step.w);
    hide Inv;
    MovesInBatch(cfg, s, step);
  }

  lemma MovesInBatch(cfg: Config, s: State, step: Step)
    requires AtBatch(cfg, s, step.w) && Enabled(cfg, s, step)
    requires step.Begin? || step.SinkMark? || step.SinkCount? || step.Finish?
    ensures BatchMove(s, Next(cfg, s, step), step.w)
  {
    hide GoodConfig, BatchOk, AfterTask, MaskBy;
    var x := s.workers[step.w].ctx;
    assert s.ctxs == s.ctxs[x := s.ctxs[x]];
    match step case Begin(_, _) => case SinkMark(_) => case SinkCount(_) => case Finish(_, _, _) =>
  }

  lemma InBatchInv(cfg: Config, inputs: seq<Ctx>, s: State, s': State, w: nat)
    requires Inv(cfg, inputs, s) && BatchMove(s, s', w)
    requires BatchOk(cfg, s'.ctxs[s.workers[w].ctx], s'.workers[w])
    requires Counts(s') && TraceOk(cfg, s')
    ensures Inv(cfg, inputs, s')
  {
    hide TasksOk, QueuedOk, OutputOk, BatchOk, GoodConfig, Owned, PlacesOk, Counts, TraceOk, BatchMove;
    BatchOwned(inputs, s, s', w);
    BatchPlaces(cfg, inputs, s, s', w);
  }

  /** A worker moves between states in which it holds nothing. */
  lemma IdleStep(cfg: Config, inputs: seq<Ctx>, s: State, w: nat, k: Worker)
    requires Inv(cfg, inputs, s) && w < |s.workers|
    requires (s.workers[w].Checking? || s.workers[w].Waiting?) && (k.Checking? || k.Waiting? || (k.Stopped? && s.counter == 0))
    ensures Inv(cfg, inputs, SetWorker(s, w, k))
  {
    hide GoodConfig, TraceOk, PlacesOk, Owned, Counts;
    IdleOwned(inputs, s, w, k);
    IdlePlaces(cfg, s, w, k);
    IdleCounts(s, w, k);
    TraceSame(cfg, s, SetWorker(s, w, k));
  }

  lemma IdleOwned(inputs: seq<Ctx>, s: State, w: nat, k: Worker)
    requires Owned(inputs, s) && w < |s.workers| && (s.workers[w].Checking? || s.workers[w].Waiting?) && !k.Batch?
    ensures Owned(inputs, SetWorker(s, w, k))
  {
    SomewhereKept(inputs, s, SetWorker(s, w, k), w);
  }

  lemma IdlePlaces(cfg: Config, s: State, w: nat, k: Worker)
    requires GoodConfig(cfg) && PlacesOk(cfg, s) && w < |s.workers| && !k.Batch? && !k.Dropping?
    ensures PlacesOk(cfg, SetWorker(s, w, k))
  {
    hide GoodConfig, QueuedOk, OutputOk, BatchOk;
    forall c | c in s.queue ensures InLine(cfg, SetWorker(s, w, k), c) { assert InLine(cfg, s, c); }
  }

  lemma IdleCounts(s: State, w: nat, k: Worker)
    requires Counts(s) && w < |s.workers| && !s.workers[w].Batch? && !k.Batch? && (k.Stopped? ==> s.counter == 0)
    ensures Counts(SetWorker(s, w, k))
  {
    var s' := SetWorker(s, w, k);
    assert Live(s') == Live(s) && Owing(s') == Owing(s);
  }

  /** Where nothing was masked, a sink that is ready is ready alone. */
  lemma SinkReadyAlone(cfg: Config, c: CtxState)
    requires GoodConfig(cfg) && QueuedOk(cfg, c) && cfg.sink in c.ts.available && c.masked == {}
    ensures c.ts.available == {cfg.sink}
  {
    assert Root(cfg.g, cfg.source);
    forall t | t in c.ts.completed ensures cfg.g.up[t] <= c.ts.completed {}
    forall t | t in cfg.g.nodes && t != cfg.sink
      ensures t in c.ts.completed
    {
      SinkBelow(cfg.g, cfg.source, cfg.sink, t);
      DescTrans(cfg.g, t, cfg.sink);
      AncUnfold(cfg.g, cfg.sink);
      if t !in cfg.g.up[cfg.sink] {
        var u :| u in cfg.g.up[cfg.sink] && t in Anc(cfg.g, u);
        UpClosedHoldsAncestors(cfg.g, c.ts.completed, u);
      }
    }
  }

  lemma BeginBatchOk(cfg: Config, c: CtxState, k: Worker, t: Task)
    requires GoodConfig(cfg) && k.Batch? && BatchOk(cfg, c, k) && t in k.todo
    ensures BatchOk(cfg, c.(started := c.started + {t}), k.(todo := k.todo - {t}, inflight := k.inflight + {t}))
    ensures t !in c.started && t in cfg.g.nodes && cfg.g.up[t] <= c.ts.completed
  {
    assert cfg.g.Valid();
    hide GoodConfig, Exact;
    assert t in k.batch;
  }

  /** What is completed was recorded as done or masked. */
  lemma CompletedRecorded(cfg: Config, s: State, x: Ctx, u: Task)
    requires GoodConfig(cfg) && x in s.ctxs && TasksOk(cfg, s.ctxs[x]) && Recorded(s)
    requires u in s.ctxs[x].ts.completed && u != cfg.source
    ensures DoneIn(s.trace, x, u) || MaskedIn(s.trace, x, u)
  {
    hide GoodConfig, DoneIn, MaskedIn, Exact;
  }

  lemma BeginUpstream(cfg: Config, s: State, x: Ctx, t: Task)
    requires GoodConfig(cfg) && x in s.ctxs && TasksOk(cfg, s.ctxs[x]) && Recorded(s)
    requires t in cfg.g.nodes && cfg.g.up[t] <= s.ctxs[x].ts.completed
    ensures UpstreamDone(cfg, Start(x, t), s.trace)
  {
    hide Recorded, TasksOk, DoneIn, MaskedIn;
    forall u | u in cfg.g.up[t] && u != cfg.source ensures DoneIn(s.trace, x, u) || MaskedIn(s.trace, x, u) {
      CompletedRecorded(cfg, s, x, u);
    }
  }

  /** What entering a task does to the batch of worker w. */
  lemma BeginShape(cfg: Config, s: State, w: nat, t: Task)
    requires AtBatch(cfg, s, w) && Enabled(cfg, s, Begin(w, t))
    ensures var s', x := Next(cfg, s, Begin(w, t)), s.workers[w].ctx;
      && BatchMove(s, s', w) && BatchOk(cfg, s'.ctxs[x], s'.workers[w]) && Recording(s, s', Start(x, t))
      && s'.counter == s.counter && s'.workers[w].stage == s.workers[w].stage && s'.ctxs[x].alive == s.ctxs[x].alive
      && TasksOk(cfg, s.ctxs[x]) && t in cfg.g.nodes && cfg.g.up[t] <= s.ctxs[x].ts.completed
  {
    assert cfg.g.Valid();
    hide GoodConfig, BatchOk, TasksOk, Next;
    var k := s.workers[w];
    BeginBatchOk(cfg, s.ctxs[k.ctx], k, t);
    BatchTasks(cfg, s.ctxs[k.ctx], k);
    BeginRecords(cfg, s, w, t);
    hide Recording, BatchMove;
    BeginIs(cfg, s, w, t);
  }

  lemma BeginRecords(cfg: Config, s: State, w: nat, t: Task)
    requires cfg.g.Valid() && Enabled(cfg, s, Begin(w, t)) && t !in s.ctxs[s.workers[w].ctx].started
    ensures Recording(s, Next(cfg, s, Begin(w, t)), Start(s.workers[w].ctx, t)) && BatchMove(s, Next(cfg, s, Begin(w, t)), w)
  {
    BeginIs(cfg, s, w, t);
    hide Next;
  }

  lemma BeginIs(cfg: Config, s: State, w: nat, t: Task)
    requires cfg.g.Valid() && Enabled(cfg, s, Begin(w, t))
    ensures var s', k := Next(cfg, s, Begin(w, t)), s.workers[w];
      && s'.workers == s.workers[w := k.(todo := k.todo - {t}, inflight := k.inflight + {t})] && s'.counter == s.counter
      && s'.ctxs == s.ctxs[k.ctx := s.ctxs[k.ctx].(started := s.ctxs[k.ctx].started + {t})]
      && s'.trace == s.trace + [Start(k.ctx, t)] && s'.queue == s.queue && s'.outputs == s.outputs
  {
  }

  lemma BatchTasks(cfg: Config, c: CtxState, k: Worker)
    requires GoodConfig(cfg) && k.Batch? && BatchOk(cfg, c, k)
    ensures TasksOk(cfg, c)
  {
    hide GoodConfig, TasksOk;
  }

  lemma BeginStep(cfg: Config, inputs: seq<Ctx>, s: State, w: nat, t: Task)
    requires Inv(cfg, inputs, s) && Enabled(cfg, s, Begin(w, t))
    ensures Inv(cfg, inputs, Next(cfg, s, Begin(w, t)))
  {
    BatchAt(cfg, inputs, s, w);
    BeginShape(cfg, s, w, t);
    hide GoodConfig, TasksOk, Owned, PlacesOk, Counts, Once, Recorded, UpstreamDone, BatchOk, AtBatch, Next, Enabled, BatchMove, Recording;
    var x := s.workers[w].ctx;
    var s' := Next(cfg, s, Begin(w, t));
    BeginUpstream(cfg, s, x, t);
    BatchCounts(s, s', w);
    TraceAppend(cfg, s, s', Start(x, t));
    InBatchInv(cfg, inputs, s, s', w);
  }

  lemma MaskFacts(cfg: Config, t: Task, chosen: set<Task>)
    requires GoodConfig(cfg) && t in cfg.g.nodes && MayPick(cfg, t, chosen)
    ensures MaskBy(cfg, t, chosen) <= cfg.g.nodes && cfg.sink !in MaskBy(cfg, t, chosen)
    ensures chosen == cfg.g.down[t] ==> MaskBy(cfg, t, chosen) == {}
  {
    if t in cfg.routers {
      MaskSparesSinkIff(cfg.g, cfg.source, cfg.sink, t, chosen);
    }
  }

  /** Masking and completing keep the task state in order. */
  lemma AfterTaskOk(cfg: Config, c: CtxState, t: Task, chosen: set<Task>)
    requires GoodConfig(cfg) && TasksOk(cfg, c) && t in cfg.g.nodes && t != cfg.source && MayPick(cfg, t, chosen)
    requires t == cfg.sink ==> chosen == {}
    ensures var c' := AfterTask(cfg, c, t, chosen); TasksOk(cfg, c') && c.ts.completed <= c'.ts.completed
  {
    MaskFacts(cfg, t, chosen);
    var mask := MaskBy(cfg, t, chosen);
    hide MaskBy;
    if t != cfg.sink {
      assert c.finished + {t} - {cfg.sink} == c.finished - {cfg.sink} + {t};
    } else {
      assert t !in cfg.routers;
      assert c.finished + {t} - {cfg.sink} == c.finished - {cfg.sink};
    }
  }

  lemma FinishBatchOk(cfg: Config, c: CtxState, k: Worker, t: Task, chosen: set<Task>)
    requires GoodConfig(cfg) && k.Batch? && BatchOk(cfg, c, k) && t in k.inflight && (t == cfg.sink ==> k.stage.Counted?)
    requires MayPick(cfg, t, chosen)
    ensures BatchOk(cfg, AfterTask(cfg, c, t, chosen), k.(inflight := k.inflight - {t}))
    ensures t !in c.finished
  {
    assert t in k.batch;
    assert t == cfg.sink ==> chosen == {};
    hide TasksOk;
    AfterTaskOk(cfg, c, t, chosen);
    AfterTaskNotes(cfg, c, t, chosen);
    hide GoodConfig, AfterTask, MaskBy;
  }

  lemma FinishIs(cfg: Config, s: State, w: nat, t: Task, chosen: set<Task>)
    requires cfg.g.Valid() && Enabled(cfg, s, Finish(w, t, chosen))
    ensures var s', k := Next(cfg, s, Finish(w, t, chosen)), s.workers[w];
      && s'.workers == s.workers[w := k.(inflight := k.inflight - {t})] && s'.counter == s.counter
      && s'.ctxs == s.ctxs[k.ctx := AfterTask(cfg, s.ctxs[k.ctx], t, chosen)]
      && s'.trace == s.trace + [Done(k.ctx, t, MaskBy(cfg, t, chosen))]
      && s'.queue == s.queue && s'.outputs == s.outputs
  {
    hide AfterTask, MaskBy;
  }

  lemma AfterTaskNotes(cfg: Config, c: CtxState, t: Task, chosen: set<Task>)
    requires cfg.g.Valid()
    ensures var c' := AfterTask(cfg, c, t, chosen);
      && c'.alive == c.alive && c'.started == c.started && c'.finished == c.finished + {t}
      && c'.masked == c.masked + MaskBy(cfg, t, chosen)
  {
    hide MaskBy;
  }

  /** What leaving a task does to the batch of worker w. */
  lemma FinishShape(cfg: Config, s: State, w: nat, t: Task, chosen: set<Task>)
    requires AtBatch(cfg, s, w) && Enabled(cfg, s, Finish(w, t, chosen))
    ensures var s', x := Next(cfg, s, Finish(w, t, chosen)), s.workers[w].ctx;
      && BatchMove(s, s', w) && BatchOk(cfg, s'.ctxs[x], s'.workers[w])
      && Recording(s, s', Done(x, t, MaskBy(cfg, t, chosen)))
      && s'.counter == s.counter && s'.workers[w].stage == s.workers[w].stage && s'.ctxs[x].alive == s.ctxs[x].alive
  {
    assert cfg.g.Valid();
    hide GoodConfig, BatchOk, TasksOk, MaskBy, Next, AfterTask;
    var k := s.workers[w];
    FinishIs(cfg, s, w, t, chosen);
    FinishBatchOk(cfg, s.ctxs[k.ctx], k, t, chosen);
    AfterTaskNotes(cfg, s.ctxs[k.ctx], t, chosen);
    hide MayPick;
  }

  lemma FinishStep(cfg: Config, inputs: seq<Ctx>, s: State, w: nat, t: Task, chosen: set<Task>)
    requires Inv(cfg, inputs, s) && Enabled(cfg, s, Finish(w, t, chosen))
    ensures Inv(cfg, inputs, Next(cfg, s, Finish(w, t, chosen)))
  {
    BatchAt(cfg, inputs, s, w);
    FinishShape(cfg, s, w, t, chosen);
    hide GoodConfig, TasksOk, Owned, PlacesOk, Counts, TraceOk, BatchOk, AtBatch, Next, Enabled, BatchMove, Recording, MaskBy;
    var x := s.workers[w].ctx;
    var s' := Next(cfg, s, Finish(w, t, chosen));
    BatchCounts(s, s', w);
    TraceAppend(cfg, s, s', Done(x, t, MaskBy(cfg, t, chosen)));
    InBatchInv(cfg, inputs, s, s', w);
  }

  lemma SinkStageBatchOk(cfg: Config, c: CtxState, k: Worker)
    requires GoodConfig(cfg) && k.Batch? && BatchOk(cfg, c, k)
    ensures cfg.sink in k.inflight && k.stage.Fresh? ==> c.alive && BatchOk(cfg, c.(alive := false), k.(stage := Marked))
    ensures k.stage.Marked? ==> BatchOk(cfg, c, k.(stage := Counted))
  {
    hide GoodConfig, TasksOk;
    assert TasksOk(cfg, c) ==> TasksOk(cfg, c.(alive := false)) by { AliveIrrelevant(cfg, c); }
  }

  lemma AliveIrrelevant(cfg: Config, c: CtxState)
    requires GoodConfig(cfg)
    ensures TasksOk(cfg, c) ==> TasksOk(cfg, c.(alive := false))
  {
    hide GoodConfig;
  }

  lemma SinkMarkStep(cfg: Config, inputs: seq<Ctx>, s: State, w: nat)
    requires Inv(cfg, inputs, s) && Enabled(cfg, s, SinkMark(w))
    ensures Inv(cfg, inputs, Next(cfg, s, SinkMark(w)))
  {
    InBatch(cfg, inputs, s, SinkMark(w));
    hide GoodConfig, QueuedOk, OutputOk, BatchOk, TasksOk, Owned, PlacesOk, TraceOk, Counts;
    var k := s.workers[w];
    var s' := Next(cfg, s, SinkMark(w));
    SinkStageBatchOk(cfg, s.ctxs[k.ctx], k);
    TraceSame(cfg, s, s');
    MarkCounts(s, s', w);
    InBatchInv(cfg, inputs, s, s', w);
  }

  lemma SinkCountStep(cfg: Config, inputs: seq<Ctx>, s: State, w: nat)
    requires Inv(cfg, inputs, s) && Enabled(cfg, s, SinkCount(w))
    ensures Inv(cfg, inputs, Next(cfg, s, SinkCount(w)))
  {
    InBatch(cfg, inputs, s, SinkCount(w));
    hide GoodConfig, QueuedOk, OutputOk, BatchOk, TasksOk, Owned, PlacesOk, TraceOk, Counts;
    var k := s.workers[w];
    var s' := Next(cfg, s, SinkCount(w));
    SinkStageBatchOk(cfg, s.ctxs[k.ctx], k);
    TraceSame(cfg, s, s');
    PaidCounts(s, s', w);
    InBatchInv(cfg, inputs, s, s', w);
  }

  /** The batch a worker starts on a queued context. */
  lemma TakeBatchOk(cfg: Config, c: CtxState, x: Ctx)
    requires GoodConfig(cfg) && QueuedOk(cfg, c)
    ensures c.ts.available != {}
    ensures BatchOk(cfg, c, Batch(x, c.ts.available, c.ts.available, {}, Fresh))
  {
    SomethingAvailable(cfg.g, cfg.source, cfg.sink, c.ts);
    if cfg.sink in c.ts.available && c.masked == {} {
      SinkReadyAlone(cfg, c);
    }
    assert Root(cfg.g, cfg.source);
  }

  lemma RemoveAt<T>(l: seq<T>, i: nat)
    requires i < |l| && Distinct(l)
    ensures var m := l[..i] + l[i + 1..]; Distinct(m) && Elems(l) == Elems(m) + {l[i]} && l[i] !in m
  {
    var m := l[..i] + l[i + 1..];
    assert l == l[..i] + [l[i]] + l[i + 1..];
    forall x ensures x in l <==> x in m || x == l[i] {}
  }

  /** Worker w was handed the i-th queued context. */
  ghost predicate TakeMove(cfg: Config, s: State, s': State, w: nat, i: nat)
    requires GoodConfig(cfg)
  {
    && w < |s.workers| == |s'.workers| && i < |s.queue| && s.workers[w].Waiting? && s.queue[i] in s.ctxs
    && s'.queue == s.queue[..i] + s.queue[i + 1..] && s'.ctxs == s.ctxs && s'.outputs == s.outputs
    && s'.trace == s.trace && s'.counter == s.counter && s'.workers == s.workers[w := s'.workers[w]]
    && if s.ctxs[s.queue[i]].alive then
         && s'.workers[w].Batch? && s'.workers[w].ctx == s.queue[i] && s'.workers[w].stage == Fresh
         && s'.workers[w].todo == s'.workers[w].batch == s.ctxs[s.queue[i]].ts.available && s'.workers[w].inflight == {}
         && BatchOk(cfg, s.ctxs[s.queue[i]], s'.workers[w])
       else s'.workers[w].Checking?
  }

  lemma TakeOwned(cfg: Config, inputs: seq<Ctx>, s: State, s': State, w: nat, i: nat)
    requires GoodConfig(cfg) && Owned(inputs, s) && PlacesOk(cfg, s) && TakeMove(cfg, s, s', w, i)
    ensures Owned(inputs, s')
  {
    hide GoodConfig, OutputOk, QueuedOk, BatchOk;
    RemoveAt(s.queue, i);
    var x := s.queue[i];
    assert x in s.queue && InLine(cfg, s, x);
    if s.ctxs[x].alive {
      assert x in s.outputs ==> OutputOk(cfg, s.ctxs[x]);
      AliveIsNotOut(cfg, s.ctxs[x]);
    }
    hide PlacesOk;
    forall c | c in s'.ctxs
      ensures c in s'.queue || c in s'.outputs || exists v :: 0 <= v < |s'.workers| && Holds(s'.workers[v], c)
    {
      TakenIsPlaced(inputs, s, s', w, i, c);
    }
  }

  lemma AliveIsNotOut(cfg: Config, c: CtxState)
    requires GoodConfig(cfg) && c.alive
    ensures !OutputOk(cfg, c)
  {
    hide GoodConfig;
  }

  lemma TakenIsPlaced(inputs: seq<Ctx>, s: State, s': State, w: nat, i: nat, c: Ctx)
    requires Owned(inputs, s) && c in s.ctxs && i < |s.queue| && w < |s.workers| == |s'.workers| && s.workers[w].Waiting?
    requires s'.queue == s.queue[..i] + s.queue[i + 1..] && s'.outputs == s.outputs
    requires s'.workers == s.workers[w := s'.workers[w]]
    requires Holds(s'.workers[w], s.queue[i]) || s.queue[i] in s.outputs
    ensures c in s'.queue || c in s'.outputs || exists v :: 0 <= v < |s'.workers| && Holds(s'.workers[v], c)
  {
    RemoveAt(s.queue, i);
    if c == s.queue[i] {
    } else if c in Elems(s.queue) || c in Elems(s.outputs) {
      assert c in Elems(s'.queue) || c in Elems(s'.outputs);
    } else {
      var v :| 0 <= v < |s.workers| && Holds(s.workers[v], c);
      assert Holds(s'.workers[v], c);
    }
  }

  lemma TakePlaces(cfg: Config, s: State, s': State, w: nat, i: nat)
    requires GoodConfig(cfg) && PlacesOk(cfg, s) && TakeMove(cfg, s, s', w, i)
    ensures PlacesOk(cfg, s')
  {
    hide GoodConfig, OutputOk, QueuedOk, BatchOk;
    forall c | c in s'.queue ensures InLine(cfg, s', c) {
      assert c in s.queue && InLine(cfg, s, c);
    }
  }

  lemma TakeShape(cfg: Config, inputs: seq<Ctx>, s: State, w: nat, i: nat) returns (s': State)
    requires Inv(cfg, inputs, s) && Enabled(cfg, s, Take(w, i))
    ensures s' == Next(cfg, s, Take(w, i)) && TakeMove(cfg, s, s', w, i)
  {
    assert s.queue[i] in s.queue && InLine(cfg, s, s.queue[i]);
    hide Inv;
    s' := TakeMoves(cfg, s, w, i);
  }

  lemma TakeMoves(cfg: Config, s: State, w: nat, i: nat) returns (s': State)
    requires GoodConfig(cfg) && Enabled(cfg, s, Take(w, i)) && InLine(cfg, s, s.queue[i])
    ensures s' == Next(cfg, s, Take(w, i)) && TakeMove(cfg, s, s', w, i)
  {
    assert cfg.g.Valid();
    hide GoodConfig, OutputOk, BatchOk, TasksOk;
    s' := Next(cfg, s, Take(w, i));
    var x := s.queue[i];
    if s.ctxs[x].alive {
      TakeBatchOk(cfg, s.ctxs[x], x);
    }
  }

  lemma TakeStep(cfg: Config, inputs: seq<Ctx>, s: State, w: nat, i: nat)
    requires Inv(cfg, inputs, s) && Enabled(cfg, s, Take(w, i))
    ensures Inv(cfg, inputs, Next(cfg, s, Take(w, i)))
  {
    var s' := TakeShape(cfg, inputs, s, w, i);
    hide GoodConfig, OutputOk, QueuedOk, BatchOk, TasksOk, TraceOk, Owned, PlacesOk, Counts, Next, AfterTake;
    TakeOwned(cfg, inputs, s, s', w, i);
    TakePlaces(cfg, s, s', w, i);
    TraceSame(cfg, s, s');
    PlainCounts(s, s', w);
  }

  lemma EndBatchOwned(inputs: seq<Ctx>, s: State, s': State, w: nat, x: Ctx)
    requires Owned(inputs, s) && w < |s.workers| && s.workers[w].Batch? && s.workers[w].ctx == x
    requires s'.ctxs == s.ctxs && s'.workers == s.workers[w := Checking]
    requires s'.queue == [x] + s.queue || s'.queue == s.queue
    requires s'.outputs == s.outputs + [x] || (s'.outputs == s.outputs && s'.queue != s.queue)
    ensures Owned(inputs, s')
  {
    assert Elems(s'.queue) + Elems(s'.outputs) == Elems(s.queue) + Elems(s.outputs) + {x};
    SomewhereKept(inputs, s, s', w);
  }

  /** Where a context may go after its batch. */
  lemma EndBatchPlace(cfg: Config, c: CtxState, k: Worker)
    requires GoodConfig(cfg) && k.Batch? && BatchOk(cfg, c, k) && k.todo == {} && k.inflight == {}
    ensures k.stage != Marked
    ensures cfg.sink in k.batch ==> OutputOk(cfg, c) && (k.batch - {cfg.sink} != {} ==> c.masked != {})
    ensures cfg.sink !in k.batch ==> k.batch - {cfg.sink} != {} && QueuedOk(cfg, c)
  {
    hide GoodConfig, TasksOk;
    if cfg.sink !in k.batch {
      assert k.batch - {cfg.sink} == k.batch;
    } else if k.batch - {cfg.sink} != {} {
      assert k.batch != {cfg.sink};
    }
  }

  /** What ending a batch of context x does to the state. */
  ghost predicate EndMove(cfg: Config, s: State, s': State, w: nat, x: Ctx)
    requires GoodConfig(cfg)
  {
    && w < |s.workers| && s.workers[w].Batch? && x == s.workers[w].ctx && x in s.ctxs && s.workers[w].stage != Marked
    && s'.ctxs == s.ctxs && s'.workers == s.workers[w := Checking] && s'.trace == s.trace && s'.counter == s.counter
    && if cfg.sink in s.workers[w].batch then
         && OutputOk(cfg, s.ctxs[x]) && s'.outputs == s.outputs + [x]
         && (s'.queue == s.queue || (s'.queue == [x] + s.queue && s.ctxs[x].masked != {} && s.workers[w].batch != {cfg.sink}))
       else QueuedOk(cfg, s.ctxs[x]) && s'.outputs == s.outputs && s'.queue == [x] + s.queue
  }

  lemma EndBatchPlaces(cfg: Config, s: State, s': State, w: nat, x: Ctx)
    requires GoodConfig(cfg) && PlacesOk(cfg, s) && EndMove(cfg, s, s', w, x)
    ensures PlacesOk(cfg, s')
  {
    hide GoodConfig, BatchOk, TasksOk;
    forall c | c in s'.queue ensures InLine(cfg, s', c) {
      assert c == x || InLine(cfg, s, c);
    }
  }

  lemma EndBatchShape(cfg: Config, inputs: seq<Ctx>, s: State, w: nat) returns (s': State, x: Ctx)
    requires Inv(cfg, inputs, s) && Enabled(cfg, s, EndBatch(w))
    ensures s' == Next(cfg, s, EndBatch(w)) && EndMove(cfg, s, s', w, x)
  {
    BatchAt(cfg, inputs, s, w);
    hide Inv;
    s', x := EndMoves(cfg, s, w);
  }

  lemma EndMoves(cfg: Config, s: State, w: nat) returns (s': State, x: Ctx)
    requires AtBatch(cfg, s, w) && Enabled(cfg, s, EndBatch(w))
    ensures s' == Next(cfg, s, EndBatch(w)) && EndMove(cfg, s, s', w, x)
  {
    assert cfg.g.Valid();
    hide GoodConfig, OutputOk, QueuedOk, BatchOk;
    s' := Next(cfg, s, EndBatch(w));
    x := s.workers[w].ctx;
    EndBatchPlace(cfg, s.ctxs[x], s.workers[w]);
    assert [] + s.queue == s.queue && s.outputs + [] == s.outputs;
  }

  lemma EndBatchStep(cfg: Config, inputs: seq<Ctx>, s: State, w: nat)
    requires Inv(cfg, inputs, s) && Enabled(cfg, s, EndBatch(w))
    ensures Inv(cfg, inputs, Next(cfg, s, EndBatch(w)))
  {
    var s', x := EndBatchShape(cfg, inputs, s, w);
    hide GoodConfig, OutputOk, QueuedOk, BatchOk, TasksOk, TraceOk, Owned, PlacesOk, Counts, Next;
    EndBatchOwned(inputs, s, s', w, x);
    EndBatchPlaces(cfg, s, s', w, x);
    TraceSame(cfg, s, s');
    PlainCounts(s, s', w);
  }

  /** Every enabled step keeps the invariant. */
  lemma StepInv(cfg: Config, inputs: seq<Ctx>, s: State, step: Step)
    requires Inv(cfg, inputs, s) && Enabled(cfg, s, step)
    ensures Inv(cfg, inputs, Next(cfg, s, step))
  {
    hide GoodConfig, Owned, TraceOk, QueuedOk, OutputOk, BatchOk;
    match step
    case Check(w) => IdleStep(cfg, inputs, s, w, if s.counter > 0 then Waiting else Stopped);
    case Timeout(w) => IdleStep(cfg, inputs, s, w, Checking);
    case Take(w, i) => TakeStep(cfg, inputs, s, w, i);
    case DropCount(w) =>
    case Begin(w, t) => BeginStep(cfg, inputs, s, w, t);
    case SinkMark(w) => SinkMarkStep(cfg, inputs, s, w);
    case SinkCount(w) => SinkCountStep(cfg, inputs, s, w);
    case Finish(w, t, chosen) => FinishStep(cfg, inputs, s, w, t, chosen);
    case EndBatch(w) => EndBatchStep(cfg, inputs, s, w);
  }

  lemma {:induction false} RunInv(cfg: Config, inputs: seq<Ctx>, s: State, steps: seq<Step>)
    requires Inv(cfg, inputs, s) && IsRun(cfg, s, steps)
    ensures Inv(cfg, inputs, After(cfg, s, steps))
    decreases |steps|
  {
    assert cfg.g.Valid();
    hide GoodConfig, Owned, PlacesOk, Counts, TraceOk, Enabled, Next;
    if steps != [] {
      StepInv(cfg, inputs, s, steps[0]);
      RunInv(cfg, inputs, Next(cfg, s, steps[0]), steps[1..]);
    }
  }
}
