/** The executor object (shutils/dag/executor.py): worker loops over the contexts, their task states, the runtime
    counter and the priority queue, each of which is an object with a specification of its own. */
module ExecutorLoop {
  import opened Graphs
  import opened TaskStates
  import opened Dags
  import opened Routing
  import opened Executors
  import opened ExecutorRuns
  import opened ExecutorEnds
  import Bands
  import ContextQueues
  import Lifecycles

  /** A context of the program: its task state, and the object that carries its destroyed flag. */
  datatype Job = Job(state: TaskState, context: Lifecycles.Context)

  /** The objects of a context are in the state c. */
  ghost predicate JobIs(g: Graph, job: Job, c: CtxState)
    requires g.Valid()
    reads job.state, job.context
  {
    job.state.View() == c.ts && Exact(g, c.ts) && !job.state.skipComplete && (job.context.destroyed <==> !c.alive)
  }

  /** The DAG object belongs to the configuration and its closures are not stale. */
  ghost predicate DagIs(dag: DAG, cfg: Config)
    reads dag
  {
    && cfg.g.Valid() && Acyclic(cfg.g) && Connected(cfg.g, cfg.source, cfg.sink)
    && dag.View() == cfg.g && dag.inTask == cfg.source && dag.outTask == cfg.sink && dag.Fresh()
  }

  ghost predicate QueueIs(queue: ContextQueues.ContextQueue, line: seq<Ctx>)
    reads queue
  {
    queue.Valid() && queue.pending.None? && line == Line(queue.Contents())
  }

  /** Queued contexts in the order in which the queue hands them out. */
  function Line(b: Bands.Bands<Ctx>): seq<Ctx> { b.hot + b.high + b.low }

  lemma LineFirst(b: Bands.Bands<Ctx>)
    requires Line(b) != []
    ensures !b.IsEmpty() && b.First() == Line(b)[0] && Line(b.Rest()) == Line(b)[1..]
  {
  }

  lemma LineHot(b: Bands.Bands<Ctx>, x: Ctx)
    ensures Line(b.Pushed(Bands.Hot, x, true)) == [x] + Line(b)
  {
  }

  method TakeFrom(queue: ContextQueues.ContextQueue, ghost line: seq<Ctx>) returns (x: Ctx)
    requires QueueIs(queue, line) && line != []
    modifies queue
    ensures x == line[0] && QueueIs(queue, line[1..])
  {
    LineFirst(queue.Contents());
    hide ContextQueues.Good, Line;
    var got := queue.TryGet();
    x := got.value;
  }

  method PutInFront(queue: ContextQueues.ContextQueue, ghost line: seq<Ctx>, x: Ctx)
    requires QueueIs(queue, line)
    modifies queue
    ensures QueueIs(queue, [x] + line)
  {
    LineHot(queue.Contents(), x);
    hide ContextQueues.Good, Line;
    queue.PutItem(Bands.Hot, x);
  }

  method CompleteJob(cfg: Config, job: Job, ghost c: CtxState, t: Task)
    requires cfg.g.Valid() && JobIs(cfg.g, job, c) && t in cfg.g.nodes
    modifies job.state
    ensures JobIs(cfg.g, job, c.(ts := With(cfg.g, c.ts, {t})))
  {
    WithOne(cfg.g, c.ts, t);
    hide AfterComplete, With, Exact;
    job.state.Complete(cfg.g, t);
  }

  /** A router's own masking, with the DAG's closures. */
  method MaskJob(cfg: Config, dag: DAG, job: Job, ghost c: CtxState, t: Task, chosen: set<Task>)
    requires DagIs(dag, cfg) && JobIs(cfg.g, job, c) && t in cfg.g.nodes && chosen <= cfg.g.down[t]
    modifies job.state, dag`downstreamTasks
    ensures DagIs(dag, cfg) && JobIs(cfg.g, job, c.(ts := With(cfg.g, c.ts, MaskOf(cfg.g, t, chosen))))
  {
    hide MaskOf, Acyclic, Connected, DAG.Fresh;
    MaskUnrouted(dag, job.state, t, chosen);
  }

  method DestroyJob(g: Graph, job: Job, ghost c: CtxState)
    requires g.Valid() && JobIs(g, job, c)
    modifies job.context
    ensures JobIs(g, job, c.(alive := false))
  {
    job.context.destroyed := true;
  }

  lemma WithTwice(g: Graph, ts: TState, a: set<Task>, b: set<Task>)
    requires g.Valid()
    ensures With(g, With(g, ts, a), b) == With(g, ts, a + b)
    ensures Exact(g, ts) ==> With(g, ts, {}) == ts
  {
    assert ts.completed + a + b == ts.completed + (a + b);
    assert ts.completed + {} == ts.completed;
  }

  function Flat(ls: seq<seq<Ctx>>): seq<Ctx> {
    if ls == [] then [] else ls[0] + Flat(ls[1..])
  }

  lemma {:induction false} FlatGrows(ls: seq<seq<Ctx>>, w: nat, x: Ctx)
    requires w < |ls|
    ensures multiset(Flat(ls[w := ls[w] + [x]])) == multiset(Flat(ls)) + multiset{x}
  {
    var ks := ls[w := ls[w] + [x]];
    if w == 0 {
      assert ks[1..] == ls[1..];
    } else {
      FlatGrows(ls[1..], w - 1, x);
      assert ks[1..] == ls[1..][w - 1 := ls[1..][w - 1] + [x]];
    }
  }

  /** The workers' lists together hold what was emitted; one worker's list holds it in order. */
  ghost predicate Matches(ls: seq<seq<Ctx>>, n: nat, emitted: seq<Ctx>) {
    |ls| == n && multiset(Flat(ls)) == multiset(emitted) && (|ls| == 1 ==> ls[0] == emitted)
  }

  lemma MatchesEmit(ls: seq<seq<Ctx>>, n: nat, emitted: seq<Ctx>, w: nat, x: Ctx)
    requires Matches(ls, n, emitted) && w < n
    ensures |ls| == n && Matches(ls[w := ls[w] + [x]], n, emitted + [x])
  {
    FlatGrows(ls, w, x);
    hide Flat;
  }

  ghost function MaskedState(cfg: Config, ts: TState, t: Task, chosen: set<Task>): TState
    requires cfg.g.Valid() && (t in cfg.routers ==> t in cfg.g.nodes)
  {
    if t in cfg.routers then With(cfg.g, ts, MaskOf(cfg.g, t, chosen)) else ts
  }

  /** Masking, then completing. */
  lemma AfterTaskIs(cfg: Config, c: CtxState, t: Task, chosen: set<Task>)
    requires cfg.g.Valid() && Exact(cfg.g, c.ts) && (t in cfg.routers ==> t != cfg.sink && t in cfg.g.nodes)
    ensures var mid := MaskedState(cfg, c.ts, t, chosen);
      AfterTask(cfg, c, t, chosen).ts == if t != cfg.sink && t in cfg.g.nodes then With(cfg.g, mid, {t}) else mid
  {
    WithTwice(cfg.g, c.ts, MaskBy(cfg, t, chosen), {t});
    hide MaskOf, Exact;
    assert {} + {t} == {t};
  }

  class Executor {
    const cfg: Config
    const dag: DAG
    const runtime: Lifecycles.Runtime
    const queue: ContextQueues.ContextQueue
    const jobs: map<Ctx, Job>
    var workers: seq<Worker>
    /** What each worker has put out. */
    var outputs: seq<seq<Ctx>>
    ghost var model: State

    ghost const Repr: set<object>

    ghost predicate Wired()
    {
      && this in Repr && runtime in Repr && queue in Repr && dag in Repr
      && (forall c :: c in jobs ==> jobs[c].state in Repr && jobs[c].context in Repr) && Apart(jobs)
    }

    ghost predicate OutputsMatch()
      reads this
    {
      Matches(outputs, |workers|, model.outputs)
    }

    /** The objects are in the state that the transition system says. */
    ghost predicate Valid()
      reads this, Repr
    {
      && Wired() && DagIs(dag, cfg)
      && model.ctxs.Keys == jobs.Keys && (forall c :: c in jobs ==> JobIs(cfg.g, jobs[c], model.ctxs[c]))
      && QueueIs(queue, model.queue) && OutputsMatch()
      && model.workers == workers && model.counter == runtime.counter
    }

    constructor (cfg: Config, dag: DAG, runtime: Lifecycles.Runtime, queue: ContextQueues.ContextQueue, jobs: map<Ctx, Job>,
                 n: nat, ghost start: State)
      ensures this.cfg == cfg && this.dag == dag && this.runtime == runtime && this.queue == queue && this.jobs == jobs
      ensures workers == seq(n, i => Checking) && outputs == seq(n, i => []) && model == start
      ensures Repr == {this, dag, runtime, queue} + ObjectsOf(jobs)
    {
      this.cfg, this.dag, this.runtime, this.queue, this.jobs := cfg, dag, runtime, queue, jobs;
      workers, outputs, model := seq(n, i => Checking), seq(n, i => []), start;
      Repr := {this, dag, runtime, queue} + ObjectsOf(jobs);
    }

    // ---- one object at a time, the model with it

    method SetWorker(w: nat, k: Worker)
      requires Valid() && w < |workers|
      modifies this
      ensures Valid() && model == old(model).(workers := old(model).workers[w := k])
    {
      workers := workers[w := k];
      model := model.(workers := model.workers[w := k]);
    }

    method CountDown()
      requires Valid()
      modifies this, runtime
      ensures Valid() && model == old(model).(counter := old(model).counter - 1) && workers == old(workers)
    {
      runtime.counter := runtime.counter - 1;
      model := model.(counter := model.counter - 1);
    }

    /** `get` on the queue, which is not empty. */
    method TakeFirst() returns (x: Ctx)
      requires Valid() && model.queue != []
      modifies this, queue
      ensures Valid() && x == old(model).queue[0] && model == old(model).(queue := old(model).queue[1..])
      ensures workers == old(workers)
    {
      hide Apart, Flat, JobIs, QueueIs, DagIs, Graph.Valid;
      x := TakeFrom(queue, model.queue);
      model := model.(queue := model.queue[1..]);
    }

    /** `put` with the priority of the stack. */
    method PutFront(x: Ctx)
      requires Valid()
      modifies this, queue
      ensures Valid() && model == old(model).(queue := [x] + old(model).queue) && workers == old(workers)
    {
      hide Apart, Flat, JobIs, QueueIs, DagIs, Graph.Valid;
      PutInFront(queue, model.queue, x);
      model := model.(queue := [x] + model.queue);
    }

    method Emit(w: nat, x: Ctx)
      requires Valid() && w < |workers|
      modifies this
      ensures Valid() && model == old(model).(outputs := old(model).outputs + [x]) && workers == old(workers)
    {
      hide Matches, Flat, Apart, JobIs, QueueIs, DagIs, Graph.Valid;
      assert Matches(outputs, |workers|, model.outputs);
      MatchesEmit(outputs, |workers|, model.outputs, w, x);
      outputs := outputs[w := outputs[w] + [x]];
      model := model.(outputs := model.outputs + [x]);
    }

    /** The flag half of `destory`; the counter half is a step of its own. */
    method MarkDestroyed(x: Ctx)
      requires Valid() && x in jobs && cfg.g.Valid()
      modifies this, jobs[x].context
      ensures Valid() && workers == old(workers)
      ensures model == old(model).(ctxs := old(model).ctxs[x := old(model).ctxs[x].(alive := false)])
    {
      hide Flat, JobIs, QueueIs, DagIs, Graph.Valid;
      DestroyJob(cfg.g, jobs[x], model.ctxs[x]);
      model := model.(ctxs := model.ctxs[x := model.ctxs[x].(alive := false)]);
    }

    method CompleteOn(x: Ctx, t: Task)
      requires Valid() && x in jobs && cfg.g.Valid() && t in cfg.g.nodes
      modifies this, jobs[x].state
      ensures Valid() && workers == old(workers)
      ensures var c := old(model).ctxs[x];
        model == old(model).(ctxs := old(model).ctxs[x := c.(ts := With(cfg.g, c.ts, {t}))])
    {
      hide With, Flat, JobIs, QueueIs, DagIs, Graph.Valid, Matches;
      CompleteJob(cfg, jobs[x], model.ctxs[x], t);
      model := model.(ctxs := model.ctxs[x := model.ctxs[x].(ts := With(cfg.g, model.ctxs[x].ts, {t}))]);
    }

    /** Router t masks what it did not pick. */
    method MaskOn(x: Ctx, t: Task, chosen: set<Task>)
      requires Valid() && x in jobs && cfg.g.Valid() && t in cfg.g.nodes && chosen <= cfg.g.down[t]
      modifies this, jobs[x].state, dag`downstreamTasks
      ensures Valid() && workers == old(workers)
      ensures var c := old(model).ctxs[x];
        model == old(model).(ctxs := old(model).ctxs[x := c.(ts := With(cfg.g, c.ts, MaskOf(cfg.g, t, chosen)))])
    {
      hide With, Flat, JobIs, QueueIs, DagIs, MaskOf, Graph.Valid, Matches;
      MaskJob(cfg, dag, jobs[x], model.ctxs[x], t, chosen);
      model := model.(ctxs := model.ctxs[x := model.ctxs[x].(ts := With(cfg.g, model.ctxs[x].ts, MaskOf(cfg.g, t, chosen)))]);
    }

    /** For the statements about runs: task t has been entered, or left, on context x. */
    ghost method NoteStart(x: Ctx, t: Task)
      requires Valid() && x in jobs
      modifies this
      ensures Valid() && workers == old(workers)
      ensures var c := old(model).ctxs[x];
        model == old(model).(ctxs := old(model).ctxs[x := c.(started := c.started + {t})], trace := old(model).trace + [Start(x, t)])
    {
      var c := model.ctxs[x];
      model := model.(ctxs := model.ctxs[x := c.(started := c.started + {t})], trace := model.trace + [Start(x, t)]);
    }

    ghost method NoteDone(x: Ctx, t: Task, mask: set<Task>)
      requires Valid() && x in jobs
      modifies this
      ensures Valid() && workers == old(workers)
      ensures var c := old(model).ctxs[x];
        model == old(model).(ctxs := old(model).ctxs[x := c.(finished := c.finished + {t}, masked := c.masked + mask)],
                             trace := old(model).trace + [Done(x, t, mask)])
    {
      var c := model.ctxs[x];
      model := model.(ctxs := model.ctxs[x := c.(finished := c.finished + {t}, masked := c.masked + mask)],
                      trace := model.trace + [Done(x, t, mask)]);
    }

    lemma KnownWorkers()
      requires Valid()
      ensures model.workers == workers && model.ctxs.Keys == jobs.Keys && Matches(outputs, |workers|, model.outputs)
    {
      hide Matches, Graph.Valid;
    }

    /** What Valid says of one context. */
    lemma Known(x: Ctx)
      requires Valid() && x in jobs
      ensures cfg.g.Valid() && x in model.ctxs && Exact(cfg.g, model.ctxs[x].ts)
      ensures {this, dag, runtime, queue, jobs[x].state, jobs[x].context} <= Repr
    {
      assert JobIs(cfg.g, jobs[x], model.ctxs[x]);
    }

    method LookAt(x: Ctx) returns (destroyed: bool, available: set<Task>)
      requires Valid() && x in jobs
      ensures destroyed == !model.ctxs[x].alive && available == model.ctxs[x].ts.available
    {
      assert JobIs(cfg.g, jobs[x], model.ctxs[x]);
      return jobs[x].context.destroyed, jobs[x].state.availableTasks;
    }

    // ---- the worker loop

    /** `check_get_context`: a worker reads the counter and waits for a context or leaves. */
    method CheckGetContext(w: nat)
      requires Valid() && cfg.g.Valid() && Enabled(cfg, model, Check(w))
      modifies Repr
      ensures Valid() && model == Next(cfg, old(model), Check(w))
    {
      if runtime.counter > 0 {
        SetWorker(w, Waiting);
      } else {
        SetWorker(w, Stopped);
      }
    }

    /** The wait for a context timed out. */
    method TimeoutGet(w: nat)
      requires Valid() && cfg.g.Valid() && Enabled(cfg, model, Timeout(w))
      modifies Repr
      ensures Valid() && model == Next(cfg, old(model), Timeout(w))
    {
      SetWorker(w, Checking);
    }

    /** A worker is handed the first queued context and looks up its available tasks. */
    method GetContext(w: nat)
      requires Valid() && cfg.g.Valid() && Enabled(cfg, model, Take(w, 0))
      modifies Repr
      ensures Valid() && model == Next(cfg, old(model), Take(w, 0))
    {
      hide JobIs, QueueIs, DagIs, Executor.OutputsMatch, Apart, Next, Graph.Valid;
      TakeIs(cfg, model, w);
      var x := TakeFirst();
      var destroyed, available := LookAt(x);
      if destroyed {
        SetWorker(w, Checking);
      } else if available == {} {
        MarkDestroyed(x);
        SetWorker(w, Dropping(x));
      } else {
        SetWorker(w, Batch(x, available, available, {}, Fresh));
      }
    }

    /** The counter half of destroying a context without available tasks. */
    method CountDropped(w: nat)
      requires Valid() && cfg.g.Valid() && Enabled(cfg, model, DropCount(w))
      modifies Repr
      ensures Valid() && model == Next(cfg, old(model), DropCount(w))
    {
      hide JobIs, QueueIs, DagIs, Executor.OutputsMatch, Apart, Graph.Valid;
      CountDown();
      SetWorker(w, Checking);
    }

    /** `_run_task` enters the task. */
    method StartTask(w: nat, t: Task)
      requires Valid() && cfg.g.Valid() && Enabled(cfg, model, Begin(w, t))
      modifies Repr
      ensures Valid() && model == Next(cfg, old(model), Begin(w, t))
    {
      hide JobIs, QueueIs, DagIs, Executor.OutputsMatch, Apart, Graph.Valid;
      var k := workers[w];
      NoteStart(k.ctx, t);
      SetWorker(w, k.(todo := k.todo - {t}, inflight := k.inflight + {t}));
    }

    /** `SinkNode.call` marks its context destroyed, unless it was. */
    method MarkSinkContext(w: nat)
      requires Valid() && cfg.g.Valid() && Enabled(cfg, model, SinkMark(w))
      modifies Repr
      ensures Valid() && model == Next(cfg, old(model), SinkMark(w))
    {
      hide JobIs, QueueIs, DagIs, Executor.OutputsMatch, Apart, Graph.Valid;
      var k := workers[w];
      var destroyed, _ := LookAt(k.ctx);
      if !destroyed {
        MarkDestroyed(k.ctx);
        SetWorker(w, k.(stage := Marked));
      } else {
        ghost var c := model.ctxs[k.ctx];
        assert c == c.(alive := false) && model.ctxs == model.ctxs[k.ctx := c];
        SetWorker(w, k.(stage := Counted));
      }
    }

    /** `SinkNode.call` decreases the counter. */
    method CountSinkContext(w: nat)
      requires Valid() && cfg.g.Valid() && Enabled(cfg, model, SinkCount(w))
      modifies Repr
      ensures Valid() && model == Next(cfg, old(model), SinkCount(w))
    {
      hide JobIs, QueueIs, DagIs, Executor.OutputsMatch, Apart, Graph.Valid;
      CountDown();
      SetWorker(w, workers[w].(stage := Counted));
    }

    /** A router masks before it returns. */
    method MaskIfRouter(x: Ctx, t: Task, chosen: set<Task>)
      requires Valid() && cfg.g.Valid() && x in jobs && MayPick(cfg, t, chosen) && (t in cfg.routers ==> t in cfg.g.nodes)
      modifies Repr
      ensures Valid() && workers == old(workers)
      ensures var c := old(model).ctxs[x];
        model == old(model).(ctxs := old(model).ctxs[x := c.(ts := MaskedState(cfg, c.ts, t, chosen))])
    {
      hide Executor.Valid, With, MaskOf, Graph.Valid, Exact;
      Known(x);
      if t in cfg.routers {
        MaskOn(x, t, chosen);
      } else {
        ghost var c := model.ctxs[x];
        assert c == c.(ts := c.ts) && model.ctxs == model.ctxs[x := c];
      }
    }

    /** Router t masks; then t, unless it is the sink, is completed. */
    method MaskAndComplete(x: Ctx, t: Task, chosen: set<Task>)
      requires Valid() && cfg.g.Valid() && x in jobs && MayPick(cfg, t, chosen)
      requires t in cfg.routers ==> t != cfg.sink && t in cfg.g.nodes
      modifies Repr
      ensures Valid() && workers == old(workers)
      ensures var c := old(model).ctxs[x];
        model == old(model).(ctxs := old(model).ctxs[x := c.(ts := AfterTask(cfg, c, t, chosen).ts)])
    {
      hide Executor.Valid, With, MaskedState, AfterTask, Graph.Valid, Exact, MayPick;
      Known(x);
      AfterTaskIs(cfg, model.ctxs[x], t, chosen);
      MaskIfRouter(x, t, chosen);
      if t != cfg.sink && t in cfg.g.nodes {
        CompleteOn(x, t);
      }
    }

    /** What task t, which ran on context x, does to the context before its worker goes on. */
    method Return(x: Ctx, t: Task, chosen: set<Task>)
      requires Valid() && cfg.g.Valid() && x in jobs && MayPick(cfg, t, chosen)
      requires t in cfg.routers ==> t != cfg.sink && t in cfg.g.nodes
      modifies Repr
      ensures Valid() && workers == old(workers)
      ensures model == old(model).(ctxs := old(model).ctxs[x := AfterTask(cfg, old(model).ctxs[x], t, chosen)],
                                   trace := old(model).trace + [Done(x, t, MaskBy(cfg, t, chosen))])
    {
      hide Executor.Valid, AfterTask, MaskBy, Graph.Valid;
      Known(x);
      AfterTaskNotes(cfg, model.ctxs[x], t, chosen);
      MaskAndComplete(x, t, chosen);
      NoteDone(x, t, MaskBy(cfg, t, chosen));
    }

    /** `_run_task` returns: a router has masked what it did not pick, the task is completed on the context it was given. */
    method FinishTask(w: nat, t: Task, chosen: set<Task>)
      requires Valid() && cfg.g.Valid() && Enabled(cfg, model, Finish(w, t, chosen))
      requires t in cfg.routers ==> t != cfg.sink && t in cfg.g.nodes
      modifies Repr
      ensures Valid() && model == Next(cfg, old(model), Finish(w, t, chosen))
    {
      FinishIs(cfg, model, w, t, chosen);
      var k := workers[w];
      assert k.ctx in jobs;
      hide JobIs, QueueIs, DagIs, Executor.OutputsMatch, Apart, AfterTask, MaskBy, Next, Graph.Valid;
      Return(k.ctx, t, chosen);
      SetWorker(w, k.(inflight := k.inflight - {t}));
    }

    /** The end of a round: the output is kept, the context goes back to the queue. */
    method PutBack(w: nat)
      requires Valid() && cfg.g.Valid() && Enabled(cfg, model, EndBatch(w))
      modifies Repr
      ensures Valid() && model == Next(cfg, old(model), EndBatch(w))
    {
      hide JobIs, QueueIs, DagIs, Executor.OutputsMatch, Apart, Graph.Valid;
      var k := workers[w];
      if cfg.sink in k.batch {
        Emit(w, k.ctx);
      }
      if k.batch - {cfg.sink} != {} {
        PutFront(k.ctx);
      }
      SetWorker(w, Checking);
    }

    method Perform(step: Step)
      requires Valid() && cfg.g.Valid() && Enabled(cfg, model, step) && (step.Take? ==> step.i == 0)
      requires step.Finish? && step.task in cfg.routers ==> step.task != cfg.sink && step.task in cfg.g.nodes
      modifies Repr
      ensures Valid() && model == Next(cfg, old(model), step)
    {
      match step
      case Check(w) => CheckGetContext(w);
      case Timeout(w) => TimeoutGet(w);
      case Take(w, _) => GetContext(w);
      case DropCount(w) => CountDropped(w);
      case Begin(w, t) => StartTask(w, t);
      case SinkMark(w) => MarkSinkContext(w);
      case SinkCount(w) => CountSinkContext(w);
      case Finish(w, t, chosen) => FinishTask(w, t, chosen);
      case EndBatch(w) => PutBack(w);
    }

    /** Whether worker step.w can go on that way; it can only be handed the context that is first in the queue. */
    method CanPerform(step: Step) returns (can: bool)
      requires Valid() && forall c :: c in model.queue ==> c in jobs
      ensures can <==> Can(cfg, model, step)
    {
      hide Executor.Valid, Graph.Valid;
      KnownWorkers();
      if step.w >= |workers| {
        return false;
      }
      var k := workers[step.w];
      match step
      case Check(_) => can := k.Checking?;
      case Timeout(_) => can := k.Waiting? && cfg.polls;
      case Take(_, i) =>
        var waiting := QueueLength();
        can := k.Waiting? && i == 0 && waiting > 0;
      case DropCount(_) => can := k.Dropping?;
      case Begin(_, t) => can := k.Batch? && k.ctx in jobs && t in k.todo && (cfg.limit == 0 || |k.inflight| < cfg.limit);
      case SinkMark(_) => can := k.Batch? && k.ctx in jobs && cfg.sink in k.inflight && k.stage.Fresh?;
      case SinkCount(_) => can := k.Batch? && k.stage.Marked?;
      case Finish(_, t, chosen) =>
        can := k.Batch? && k.ctx in jobs && t in k.inflight && (t == cfg.sink ==> k.stage.Counted?) && MayPick(cfg, t, chosen);
      case EndBatch(_) => can := k.Batch? && k.todo == {} && k.inflight == {};
    }

    method QueueLength() returns (n: nat)
      requires Valid()
      ensures n == |model.queue|
    {
      queue.ContentsSize();
      n := |queue.heap|;
    }
  }

  lemma TakeIs(cfg: Config, s: State, w: nat)
    requires cfg.g.Valid() && Enabled(cfg, s, Take(w, 0))
    ensures var s', x, c := Next(cfg, s, Take(w, 0)), s.queue[0], s.ctxs[s.queue[0]];
      && s'.queue == s.queue[1..] && s'.counter == s.counter && s'.outputs == s.outputs && s'.trace == s.trace
      && s'.ctxs == (if c.alive && c.ts.available == {} then s.ctxs[x := c.(alive := false)] else s.ctxs)
      && s'.workers == s.workers[w :=
           if !c.alive then Checking
           else if c.ts.available == {} then Dropping(x)
           else Batch(x, c.ts.available, c.ts.available, {}, Fresh)]
  {
    assert s.workers[w := s.workers[w]] == s.workers;
  }

  // ---------------------------------------------------------------- run

  ghost predicate Begun(cfg: Config, job: Job)
    requires GoodConfig(cfg)
    reads job.state, job.context
  {
    && !job.context.destroyed
    && job.state.View() == With(cfg.g, TState({}, {}), {cfg.source}) && !job.state.skipComplete
  }

  ghost function ObjectsOf(jobs: map<Ctx, Job>): set<object> {
    (set c | c in jobs :: jobs[c].state) + (set c | c in jobs :: jobs[c].context)
  }

  /** No two contexts share an object. */
  ghost predicate Apart(jobs: map<Ctx, Job>) {
    forall c, d :: c in jobs && d in jobs && c != d ==> jobs[c].state != jobs[d].state && jobs[c].context != jobs[d].context
  }

  ghost predicate AllBegun(cfg: Config, jobs: map<Ctx, Job>)
    requires GoodConfig(cfg)
    reads ObjectsOf(jobs)
  {
    forall c :: c in jobs ==> Begun(cfg, jobs[c])
  }

  lemma OneMore(jobs: map<Ctx, Job>, x: Ctx, job: Job)
    requires x !in jobs
    ensures ObjectsOf(jobs[x := job]) == ObjectsOf(jobs) + {job.state, job.context}
    ensures Apart(jobs) && job.state !in ObjectsOf(jobs) && job.context !in ObjectsOf(jobs) ==> Apart(jobs[x := job])
  {
    var more := jobs[x := job];
    assert forall c :: c in jobs ==> more[c] == jobs[c];
    forall o | o in ObjectsOf(jobs) ensures o in ObjectsOf(more) {
      var c :| c in jobs && (o == jobs[c].state || o == jobs[c].context);
      assert more[c] == jobs[c];
    }
    assert more[x] == job;
  }

  /** A new context on the runtime, with the source completed. */
  method NewJob(cfg: Config, runtime: Lifecycles.Runtime) returns (job: Job)
    requires GoodConfig(cfg)
    modifies runtime
    ensures fresh(job.state) && fresh(job.context) && Begun(cfg, job) && runtime.counter == old(runtime.counter) + 1
  {
    EmptyExact(cfg.g);
    WithOne(cfg.g, TState({}, {}), cfg.source);
    hide AfterComplete, With, Exact;
    var context := new Lifecycles.Context(runtime, null);
    runtime.counter := runtime.counter + 1;
    var state := new TaskState();
    state.Complete(cfg.g, cfg.source);
    job := Job(state, context);
  }

  method AddJob(cfg: Config, runtime: Lifecycles.Runtime, jobs: map<Ctx, Job>, x: Ctx) returns (more: map<Ctx, Job>)
    requires GoodConfig(cfg) && AllBegun(cfg, jobs) && Apart(jobs) && x !in jobs
    modifies runtime
    ensures runtime.counter == old(runtime.counter) + 1
    ensures fresh(ObjectsOf(more) - ObjectsOf(jobs)) && AllBegun(cfg, more) && Apart(more) && more.Keys == jobs.Keys + {x}
  {
    var job := NewJob(cfg, runtime);
    OneMore(jobs, x, job);
    more := jobs[x := job];
    assert forall c :: c in jobs ==> Begun(cfg, jobs[c]);
    hide Apart, ObjectsOf, Begun;
  }

  /** The jobs of the inputs. */
  method Prepare(cfg: Config, inputs: seq<Ctx>, runtime: Lifecycles.Runtime) returns (jobs: map<Ctx, Job>)
    requires GoodConfig(cfg) && Distinct(inputs) && runtime.counter == 0
    modifies runtime
    ensures runtime.counter == |inputs| && jobs.Keys == Elems(inputs) && Apart(jobs) && fresh(ObjectsOf(jobs))
    ensures AllBegun(cfg, jobs)
  {
    hide Apart, AllBegun, GoodConfig, Distinct, Elems, Begun;
    jobs := map[];
    NoJobs(cfg, inputs);
    for i := 0 to |inputs|
      invariant runtime.counter == i && jobs.Keys == Elems(inputs[..i])
      invariant AllBegun(cfg, jobs) && Apart(jobs) && fresh(ObjectsOf(jobs))
    {
      OneMoreInput(inputs, i);
      var more := AddJob(cfg, runtime, jobs, inputs[i]);
      hide ObjectsOf;
      assert ObjectsOf(more) <= ObjectsOf(jobs) + (ObjectsOf(more) - ObjectsOf(jobs));
      jobs := more;
    }
    assert inputs[..|inputs|] == inputs;
  }

  lemma NoJobs(cfg: Config, inputs: seq<Ctx>)
    requires GoodConfig(cfg)
    ensures Apart(map[]) && AllBegun(cfg, map[]) && ObjectsOf(map[]) == {} && Elems(inputs[..0]) == {}
  {
  }

  lemma OneMoreInput(inputs: seq<Ctx>, i: nat)
    requires Distinct(inputs) && i < |inputs|
    ensures inputs[i] !in Elems(inputs[..i]) && Elems(inputs[..i + 1]) == Elems(inputs[..i]) + {inputs[i]}
  {
    assert inputs[..i + 1] == inputs[..i] + [inputs[i]];
  }

  method Enqueue(queue: ContextQueues.ContextQueue, inputs: seq<Ctx>)
    requires queue.Valid() && queue.pending.None? && queue.Contents() == Bands.Bands([], [], [])
    modifies queue
    ensures queue.Valid() && queue.pending.None? && Line(queue.Contents()) == inputs
  {
    hide ContextQueues.Good;
    for i := 0 to |inputs|
      invariant queue.Valid() && queue.pending.None? && queue.Contents() == Bands.Bands([], inputs[..i], [])
    {
      queue.PutItem(Bands.High, inputs[i]);
      assert inputs[..i + 1] == inputs[..i] + [inputs[i]];
    }
    assert inputs[..|inputs|] == inputs;
  }

  /** The executor object around what has been prepared. */
  method Assemble(cfg: Config, dag: DAG, inputs: seq<Ctx>, n: nat, runtime: Lifecycles.Runtime, jobs: map<Ctx, Job>,
                  queue: ContextQueues.ContextQueue) returns (e: Executor)
    requires GoodConfig(cfg) && runtime.counter == |inputs| && jobs.Keys == Elems(inputs) && Apart(jobs)
    requires AllBegun(cfg, jobs) && DagIs(dag, cfg)
    requires queue.Valid() && queue.pending.None? && Line(queue.Contents()) == inputs
    ensures fresh(e) && e.Valid() && e.cfg == cfg && e.model == Init(cfg, inputs, n)
    ensures e.Repr == {e, dag, runtime, queue} + ObjectsOf(jobs)
  {
    assert Exact(cfg.g, InitCtx(cfg).ts);
    hide ContextQueues.Good, Line, With, DagIs, Exact;
    e := new Executor(cfg, dag, runtime, queue, jobs, n, Init(cfg, inputs, n));
    NothingFlat(e.outputs);
    assert e.Wired();
    forall c | c in jobs ensures JobIs(cfg.g, jobs[c], e.model.ctxs[c]) {
      assert Begun(cfg, jobs[c]);
    }
    assert QueueIs(queue, e.model.queue) && e.OutputsMatch();
  }

  lemma BuiltDagIs(dag: DAG, cfg: Config)
    requires GoodConfig(cfg) && dag.View() == cfg.g && dag.inTask == cfg.source && dag.outTask == cfg.sink && dag.Fresh()
    ensures DagIs(dag, cfg)
  {
  }

  /** The part of `run` before the workers start: completes the source on each input and queues it. */
  method Start(cfg: Config, dag: DAG, inputs: seq<Ctx>, n: nat) returns (e: Executor)
    requires GoodConfig(cfg) && Distinct(inputs) && DagIs(dag, cfg)
    ensures fresh(e.Repr - {dag}) && e.Valid() && e.cfg == cfg && e.model == Init(cfg, inputs, n)
  {
    hide *;
    var runtime, queue, jobs := Setup(cfg, inputs);
    e := Assemble(cfg, dag, inputs, n, runtime, jobs, queue);
  }

  method Setup(cfg: Config, inputs: seq<Ctx>)
    returns (runtime: Lifecycles.Runtime, queue: ContextQueues.ContextQueue, jobs: map<Ctx, Job>)
    requires GoodConfig(cfg) && Distinct(inputs)
    ensures fresh(runtime) && fresh(queue) && fresh(ObjectsOf(jobs))
    ensures runtime.counter == |inputs| && jobs.Keys == Elems(inputs) && Apart(jobs) && AllBegun(cfg, jobs)
    ensures queue.Valid() && queue.pending.None? && Line(queue.Contents()) == inputs
  {
    hide ContextQueues.Good, AllBegun, Apart, ObjectsOf, Line, GoodConfig;
    runtime := new Lifecycles.Runtime();
    queue := new ContextQueues.ContextQueue();
    Enqueue(queue, inputs);
    jobs := Prepare(cfg, inputs, runtime);
  }

  lemma {:induction false} NothingFlat(ls: seq<seq<Ctx>>)
    requires forall w :: 0 <= w < |ls| ==> ls[w] == []
    ensures Flat(ls) == []
  {
    if ls != [] { NothingFlat(ls[1..]); }
  }

  lemma ReachedStart(cfg: Config, inputs: seq<Ctx>, n: nat)
    requires GoodConfig(cfg) && Distinct(inputs)
    ensures Reached(cfg, inputs, n, [], Init(cfg, inputs, n)) && FirstOnly([])
  {
  }

  /** What the invariant says of the next step. */
  lemma StepKnown(cfg: Config, inputs: seq<Ctx>, n: nat, steps: seq<Step>, s: State, step: Step)
    requires Reached(cfg, inputs, n, steps, s)
    ensures forall c :: c in s.queue ==> c in s.ctxs
    ensures step.Finish? && Enabled(cfg, s, step) && step.task in cfg.routers ==> step.task != cfg.sink && step.task in cfg.g.nodes
  {
    ReachedInv(cfg, inputs, n, steps, s);
    QueueKnown(cfg, inputs, s);
    if step.Finish? && Enabled(cfg, s, step) {
      BatchAt(cfg, inputs, s, step.w);
      InflightKnown(cfg, s.ctxs[s.workers[step.w].ctx], s.workers[step.w]);
    }
    hide Inv, AtBatch;
  }

  lemma RunSnoc(cfg: Config, inputs: seq<Ctx>, n: nat, steps: seq<Step>, s: State, step: Step)
    requires Reached(cfg, inputs, n, steps, s) && Enabled(cfg, s, step) && FirstOnly(steps) && (step.Take? ==> step.i == 0)
    ensures cfg.g.Valid() && Reached(cfg, inputs, n, steps + [step], Next(cfg, s, step)) && FirstOnly(steps + [step])
  {
    var start := Init(cfg, inputs, n);
    assert cfg.g.Valid();
    hide GoodConfig, Init, Next, Enabled;
    OneStep(cfg, s, step);
    RunsConcat(cfg, start, steps, [step]);
  }

  lemma Conclude(cfg: Config, inputs: seq<Ctx>, n: nat, steps: seq<Step>, s: State)
    requires Reached(cfg, inputs, n, steps, s) && FirstOnly(steps) && n > 0
    ensures |s.workers| == n
    ensures AllStopped(s) ==> multiset(s.outputs) == multiset(inputs)
    ensures n == 1 ==> s.outputs <= inputs && (AllStopped(s) ==> s.outputs == inputs)
  {
    ReachedInv(cfg, inputs, n, steps, s);
    hide Reached, Inv;
    if AllStopped(s) {
      AllOutputs(cfg, inputs, n, steps, s);
    }
    if n == 1 {
      OneWorkerInOrder(cfg, inputs, steps, s);
    }
  }

  /** Worker step.w can go on that way; it can only be handed the context that is first in the queue. */
  predicate Can(cfg: Config, s: State, step: Step) {
    Enabled(cfg, s, step) && (step.Take? ==> step.i == 0)
  }

  /** The state that a schedule leads to; entries that cannot be performed when their turn comes are skipped. */
  ghost function Served(cfg: Config, s: State, schedule: seq<Step>): State
    requires cfg.g.Valid()
    decreases |schedule|
  {
    if schedule == [] then s
    else Served(cfg, if Can(cfg, s, schedule[0]) then Next(cfg, s, schedule[0]) else s, schedule[1..])
  }

  lemma ServedFrom(cfg: Config, s: State, schedule: seq<Step>, i: nat)
    requires cfg.g.Valid() && i < |schedule|
    ensures Served(cfg, s, schedule[i..])
         == Served(cfg, if Can(cfg, s, schedule[i]) then Next(cfg, s, schedule[i]) else s, schedule[i + 1..])
  {
    hide Can, Next, Graph.Valid;
    assert schedule[i..][0] == schedule[i] && schedule[i..][1..] == schedule[i + 1..];
  }

  /** A schedule that is a run, in queue order, is performed entry by entry. */
  lemma {:induction false} ServedRun(cfg: Config, s: State, schedule: seq<Step>)
    requires cfg.g.Valid() && IsRun(cfg, s, schedule) && FirstOnly(schedule)
    ensures Served(cfg, s, schedule) == After(cfg, s, schedule)
    decreases |schedule|
  {
    if schedule != [] {
      assert schedule[0] in schedule && forall a :: a in schedule[1..] ==> a in schedule;
      hide Graph.Valid, Next, Enabled;
      ServedRun(cfg, Next(cfg, s, schedule[0]), schedule[1..]);
    }
  }

  lemma NothingServed(cfg: Config, s: State, schedule: seq<Step>)
    requires cfg.g.Valid()
    ensures Served(cfg, s, schedule[|schedule|..]) == s && schedule[0..] == schedule
  {
  }

  /** One entry of the schedule. */
  method ServeOne(e: Executor, ghost inputs: seq<Ctx>, ghost n: nat, ghost steps: seq<Step>, step: Step)
    returns (ghost more: seq<Step>)
    requires e.Valid() && e.cfg.g.Valid() && Reached(e.cfg, inputs, n, steps, e.model) && FirstOnly(steps)
    modifies e.Repr
    ensures e.Valid() && Reached(e.cfg, inputs, n, more, e.model) && FirstOnly(more)
    ensures e.model == if Can(e.cfg, old(e.model), step) then Next(e.cfg, old(e.model), step) else old(e.model)
  {
    hide *;
    more := steps;
    StepKnown(e.cfg, inputs, n, steps, e.model, step);
    e.KnownWorkers();
    var can := e.CanPerform(step);
    if can {
      CanMeans(e.cfg, e.model, step);
      RunSnoc(e.cfg, inputs, n, steps, e.model, step);
      e.Perform(step);
      more := steps + [step];
    }
  }

  /** The worker loops under an arbitrary scheduler: each entry of the schedule that can be performed is. */
  method Serve(e: Executor, ghost inputs: seq<Ctx>, ghost n: nat, schedule: seq<Step>) returns (ghost steps: seq<Step>)
    requires e.Valid() && e.cfg.g.Valid() && Reached(e.cfg, inputs, n, [], e.model)
    modifies e.Repr
    ensures e.Valid() && e.model == Served(e.cfg, old(e.model), schedule)
    ensures Reached(e.cfg, inputs, n, steps, e.model) && FirstOnly(steps)
  {
    steps := [];
    assert FirstOnly(steps);
    hide *;
    ghost var start := e.model;
    NothingServed(e.cfg, start, schedule);
    for i := 0 to |schedule|
      invariant e.Valid() && Reached(e.cfg, inputs, n, steps, e.model) && FirstOnly(steps)
      invariant Served(e.cfg, e.model, schedule[i..]) == Served(e.cfg, start, schedule)
    {
      ServedFrom(e.cfg, e.model, schedule, i);
      steps := ServeOne(e, inputs, n, steps, schedule[i]);
    }
    NothingServed(e.cfg, e.model, schedule);
  }

  lemma CanMeans(cfg: Config, s: State, step: Step)
    requires Can(cfg, s, step)
    ensures Enabled(cfg, s, step) && (step.Take? ==> step.i == 0)
  {
  }

  /** `run` under an arbitrary scheduler: `schedule` says which worker goes on when and what routers pick. The result
      is what the schedule leads to, the outputs listed worker by worker. If all workers have left, every input has
      one output; a single worker puts them out in the order of the inputs. */
  method Run(cfg: Config, dag: DAG, inputs: seq<Ctx>, n: nat, schedule: seq<Step>) returns (outputs: seq<Ctx>, finished: bool)
    requires GoodConfig(cfg) && Distinct(inputs) && n > 0
    requires dag.View() == cfg.g && dag.inTask == cfg.source && dag.outTask == cfg.sink && dag.Fresh()
    modifies dag
    ensures var s := Served(cfg, Init(cfg, inputs, n), schedule);
      && (finished <==> AllStopped(s)) && multiset(outputs) == multiset(s.outputs) && (n == 1 ==> outputs == s.outputs)
    ensures finished ==> multiset(outputs) == multiset(inputs)
    ensures n == 1 ==> outputs <= inputs && (finished ==> outputs == inputs)
  {
    BuiltDagIs(dag, cfg);
    assert cfg.g.Valid() && cfg.source in cfg.g.nodes;
    hide *;
    var e := Start(cfg, dag, inputs, n);
    ReachedStart(cfg, inputs, n);
    ghost var steps := Serve(e, inputs, n, schedule);
    outputs, finished := Gather(e);
    Conclude(cfg, inputs, n, steps, e.model);
  }

  /** With a timeout, with one worker, or without inputs some schedule lets `run` return, with one output for every
      input; and so on from wherever a schedule has led. */
  lemma SomeScheduleFinishes(cfg: Config, inputs: seq<Ctx>, n: nat, steps: seq<Step>) returns (schedule: seq<Step>)
    requires GoodConfig(cfg) && Distinct(inputs) && n > 0 && (cfg.polls || n == 1 || inputs == [])
    requires IsRun(cfg, Init(cfg, inputs, n), steps) && FirstOnly(steps)
    ensures steps <= schedule && IsRun(cfg, Init(cfg, inputs, n), schedule) && FirstOnly(schedule)
    ensures var s := Served(cfg, Init(cfg, inputs, n), schedule); AllStopped(s) && multiset(s.outputs) == multiset(inputs)
  {
    var start := Init(cfg, inputs, n);
    assert cfg.g.Valid() && cfg.source in cfg.g.nodes;
    InitInv(cfg, inputs, n);
    RunInv(cfg, inputs, start, steps);
    var s := After(cfg, start, steps);
    if !cfg.polls {
      RunHopeful(cfg, inputs, start, steps);
    }
    hide Inv, Hopeful, Init;
    var more := CanFinish(cfg, inputs, s);
    RunsConcat(cfg, start, steps, more);
    FirstOnlyConcat(steps, more);
    schedule := steps + more;
    ServedRun(cfg, start, schedule);
    AllOutputs(cfg, inputs, n, schedule, After(cfg, start, schedule));
  }

  /** The workers' lists joined, and whether all workers have left. */
  method Gather(e: Executor) returns (outputs: seq<Ctx>, finished: bool)
    requires e.Valid()
    ensures multiset(outputs) == multiset(e.model.outputs) && (|e.model.workers| == 1 ==> outputs == e.model.outputs)
    ensures finished <==> AllStopped(e.model)
  {
    JoinedOutputs(e);
    hide Executor.Valid;
    outputs := Concatenated(e.outputs);
    finished := forall w :: 0 <= w < |e.workers| ==> e.workers[w].Stopped?;
  }

  lemma JoinedOutputs(e: Executor)
    requires e.Valid()
    ensures e.model.workers == e.workers && multiset(Flat(e.outputs)) == multiset(e.model.outputs)
    ensures |e.workers| == 1 ==> Flat(e.outputs) == e.model.outputs
  {
    e.KnownWorkers();
    hide Executor.Valid;
    if |e.outputs| == 1 {
      assert e.outputs[1..] == [] && Flat(e.outputs) == e.outputs[0] + [];
    }
  }

  /** The loop that joins the workers' lists. */
  method Concatenated(ls: seq<seq<Ctx>>) returns (all: seq<Ctx>)
    ensures all == Flat(ls)
  {
    all := [];
    for i := 0 to |ls|
      invariant Flat(ls) == all + Flat(ls[i..])
    {
      assert ls[i..][0] == ls[i] && ls[i..][1..] == ls[i + 1..];
      all := all + ls[i];
    }
  }
}
