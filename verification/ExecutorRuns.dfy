/** What every run of the executor loop guarantees (shutils/dag/executor.py). */
module ExecutorRuns {
  import opened Graphs
  import opened TaskStates
  import opened Routing
  import opened Executors

  /** A state some interleaving of some number of workers can reach. */
  ghost predicate Reached(cfg: Config, inputs: seq<Ctx>, n: nat, steps: seq<Step>, s: State) {
    && GoodConfig(cfg) && Distinct(inputs)
    && IsRun(cfg, Init(cfg, inputs, n), steps) && s == After(cfg, Init(cfg, inputs, n), steps)
  }

  lemma ReachedInv(cfg: Config, inputs: seq<Ctx>, n: nat, steps: seq<Step>, s: State)
    requires Reached(cfg, inputs, n, steps, s)
    ensures Inv(cfg, inputs, s) && |s.workers| == n
  {
    InitInv(cfg, inputs, n);
    RunInv(cfg, inputs, Init(cfg, inputs, n), steps);
    WorkersKept(cfg, inputs, Init(cfg, inputs, n), steps);
  }

  lemma {:induction false} WorkersKept(cfg: Config, inputs: seq<Ctx>, s: State, steps: seq<Step>)
    requires cfg.g.Valid() && IsRun(cfg, s, steps)
    ensures |After(cfg, s, steps).workers| == |s.workers|
    decreases |steps|
  {
    if steps != [] {
      WorkersKept(cfg, inputs, Next(cfg, s, steps[0]), steps[1..]);
    }
  }

  // ---------------------------------------------------------------- safety

  predicate HeldBy(s: State, w: nat, c: Ctx) {
    w < |s.workers| && Holds(s.workers[w], c)
  }

  /** Every input is queued once, or held by one worker, or emitted once. A context is queued after it was emitted only
      if it is destroyed and something was masked on it: then the sink shared a batch with other tasks. */
  lemma OnePlace(cfg: Config, inputs: seq<Ctx>, n: nat, steps: seq<Step>, s: State, c: Ctx)
    requires Reached(cfg, inputs, n, steps, s) && c in inputs
    ensures c in s.ctxs && Distinct(s.queue) && Distinct(s.outputs)
    ensures c in s.queue || c in s.outputs || exists w :: HeldBy(s, w, c)
    ensures forall v, w :: HeldBy(s, v, c) && HeldBy(s, w, c) ==> v == w
    ensures (exists w :: HeldBy(s, w, c)) ==> c !in s.queue && c !in s.outputs
    ensures c in s.queue && c in s.outputs ==> s.ctxs[c].masked != {}
    ensures c in s.outputs ==> !s.ctxs[c].alive
  {
    ReachedInv(cfg, inputs, n, steps, s);
    hide Reached, GoodConfig, TasksOk, QueuedOk, BatchOk, Counts, TraceOk;
    assert c in Elems(inputs);
    OneHolder(inputs, s, c);
    hide Owned;
    if c in s.queue { assert InLine(cfg, s, c); }
    if c in s.outputs { assert OutputOk(cfg, s.ctxs[c]); }
  }

  lemma OneHolder(inputs: seq<Ctx>, s: State, c: Ctx)
    requires Owned(inputs, s) && c in s.ctxs && forall w :: 0 <= w < |s.workers| ==> !s.workers[w].Dropping?
    ensures c in s.queue || c in s.outputs || exists w :: HeldBy(s, w, c)
    ensures forall v, w :: HeldBy(s, v, c) && HeldBy(s, w, c) ==> v == w
    ensures (exists w :: HeldBy(s, w, c)) ==> c !in s.queue && c !in s.outputs
  {
    if c !in s.queue && c !in s.outputs {
      var w :| 0 <= w < |s.workers| && Holds(s.workers[w], c);
      assert HeldBy(s, w, c);
    }
  }

  /** No task is started twice on a context, none returns twice, and each is started only after all its upstream tasks
      were done or masked on that context; the trace says what was masked. */
  lemma OnceAndInOrder(cfg: Config, inputs: seq<Ctx>, n: nat, steps: seq<Step>, s: State)
    requires Reached(cfg, inputs, n, steps, s)
    ensures Once(s.trace)
    ensures forall i :: 0 <= i < |s.trace| && s.trace[i].Start? ==> UpstreamDone(cfg, s.trace[i], s.trace[..i])
    ensures forall c, t :: c in s.ctxs ==> (t in s.ctxs[c].masked <==> MaskedIn(s.trace, c, t))
  {
    ReachedInv(cfg, inputs, n, steps, s);
  }

  /** The runtime counter is the number of live contexts and of decreases under way; a worker has left through
      StopContext only if no context is live and all that is still queued was emitted. */
  lemma StopOnlyWhenNoneLive(cfg: Config, inputs: seq<Ctx>, n: nat, steps: seq<Step>, s: State, w: nat)
    requires Reached(cfg, inputs, n, steps, s) && w < n
    ensures s.counter == |Live(s)| + |Owing(s)|
    ensures w < |s.workers| && (s.workers[w].Stopped? ==> Live(s) == {} && Elems(s.queue) <= Elems(s.outputs))
  {
    ReachedInv(cfg, inputs, n, steps, s);
    if s.workers[w].Stopped? {
      NoneLive(cfg, inputs, s);
    }
  }

  lemma NoneLive(cfg: Config, inputs: seq<Ctx>, s: State)
    requires Inv(cfg, inputs, s) && s.counter <= 0
    ensures Live(s) == {} && Owing(s) == {} && Elems(s.queue) <= Elems(s.outputs)
  {
    hide GoodConfig, TasksOk, OutputOk, BatchOk, Owned, TraceOk, QueuedOk;
    forall c | c in s.queue ensures c in s.outputs {
      assert InLine(cfg, s, c);
      assert s.ctxs[c].alive ==> c in Live(s);
    }
  }

  lemma {:induction false} DistinctMultiset<T>(l: seq<T>)
    requires Distinct(l)
    ensures multiset(l) == multiset(Elems(l))
  {
    if l != [] {
      assert l == [l[0]] + l[1..];
      DistinctMultiset(l[1..]);
      assert l[0] !in l[1..];
      assert Elems(l) == {l[0]} + Elems(l[1..]);
    }
  }

  /** When all workers have stopped, each input has yielded exactly one OutputContext, and on it every task was started
      and done from which a path of tasks that were never masked leads to the sink. */
  lemma AllOutputs(cfg: Config, inputs: seq<Ctx>, n: nat, steps: seq<Step>, s: State)
    requires Reached(cfg, inputs, n, steps, s) && n > 0
    requires forall w :: 0 <= w < |s.workers| ==> s.workers[w].Stopped?
    ensures multiset(s.outputs) == multiset(inputs)
    ensures cfg.g.Valid() && forall c, t :: c in inputs && t in cfg.g.nodes && t != cfg.source ==>
      c in s.ctxs && (OpenLine(cfg.g, s.ctxs[c].masked, t, cfg.sink) ==> Start(c, t) in s.trace && DoneIn(s.trace, c, t))
  {
    ReachedInv(cfg, inputs, n, steps, s);
    StopOnlyWhenNoneLive(cfg, inputs, n, steps, s, 0);
    hide Reached;
    AllEmitted(cfg, inputs, s);
    assert cfg.g.Valid();
    forall c, t | c in inputs && t in cfg.g.nodes && t != cfg.source
      ensures c in s.ctxs && (OpenLine(cfg.g, s.ctxs[c].masked, t, cfg.sink) ==> Start(c, t) in s.trace && DoneIn(s.trace, c, t))
    {
      EmittedRan(cfg, inputs, s, c, t);
    }
  }

  lemma AllEmitted(cfg: Config, inputs: seq<Ctx>, s: State)
    requires Inv(cfg, inputs, s) && Elems(s.queue) <= Elems(s.outputs)
    requires forall w :: 0 <= w < |s.workers| ==> s.workers[w].Stopped? || s.workers[w].Waiting?
    ensures Elems(s.outputs) == Elems(inputs) && multiset(s.outputs) == multiset(inputs)
  {
    hide GoodConfig, PlacesOk, Counts, TraceOk;
    forall c | c in Elems(inputs)
      ensures c in s.outputs
    {
      assert forall v :: 0 <= v < |s.workers| ==> !Holds(s.workers[v], c);
      assert c in s.queue ==> c in Elems(s.queue);
    }
    assert Elems(s.outputs) == Elems(inputs);
    DistinctMultiset(inputs);
    DistinctMultiset(s.outputs);
  }

  lemma EmittedRan(cfg: Config, inputs: seq<Ctx>, s: State, c: Ctx, t: Task)
    requires Inv(cfg, inputs, s) && c in inputs && Elems(s.outputs) == Elems(inputs) && t in cfg.g.nodes && t != cfg.source
    ensures c in s.ctxs && (OpenLine(cfg.g, s.ctxs[c].masked, t, cfg.sink) ==> Start(c, t) in s.trace && DoneIn(s.trace, c, t))
  {
    assert cfg.g.Valid();
    hide GoodConfig, QueuedOk, BatchOk, Counts, UpstreamDone, DoneIn, MaskedIn, Once, TasksOk;
    assert c in Elems(s.outputs) && OutputOk(cfg, s.ctxs[c]);
    if OpenLine(cfg.g, s.ctxs[c].masked, t, cfg.sink) {
      var p :| OpenPath(cfg.g, s.ctxs[c].masked, p) && p[0] == t && p[|p| - 1] == cfg.sink;
      OpenRan(cfg, s.ctxs[c], p);
    }
  }

  /** On an emitted context every task of a path to the sink is done if none of them was masked. */
  lemma {:induction false} OpenRan(cfg: Config, c: CtxState, p: seq<Task>)
    requires GoodConfig(cfg) && OutputOk(cfg, c)
    requires OpenPath(cfg.g, c.masked, p) && p[|p| - 1] == cfg.sink && p[0] != cfg.source
    ensures p[0] in c.finished && p[0] in c.started
    decreases |p|
  {
    if |p| > 1 {
      var q := p[1..];
      assert p[1] in cfg.g.down[p[0]];
      assert Root(cfg.g, cfg.source);
      forall i, j | 0 <= i < |q| - 1 && j == i + 1 ensures q[j] in cfg.g.down[q[i]] {
        assert p[j + 1] in cfg.g.down[p[i + 1]];
      }
      assert OpenPath(cfg.g, c.masked, q);
      OpenRan(cfg, c, q);
      assert p[0] in cfg.g.up[q[0]];
    }
  }

  // ---------------------------------------------------------------- masked tasks

  /** t is completed on c and no batch under way is about to start it. */
  ghost predicate Shut(s: State, c: Ctx, t: Task) {
    && c in s.ctxs && t in s.ctxs[c].ts.completed
    && forall w :: 0 <= w < |s.workers| && s.workers[w].Batch? && s.workers[w].ctx == c ==> t !in s.workers[w].todo
  }

  lemma TakeShut(cfg: Config, s: State, s': State, w: nat, i: nat, c: Ctx, t: Task)
    requires GoodConfig(cfg) && TakeMove(cfg, s, s', w, i) && InLine(cfg, s, s.queue[i]) && Shut(s, c, t)
    ensures Shut(s', c, t) && s'.ctxs == s.ctxs
  {
    if s.ctxs[s.queue[i]].alive {
      assert s.ctxs[s.queue[i]].ts.available !! s.ctxs[s.queue[i]].ts.completed;
    }
    hide GoodConfig, BatchOk, QueuedOk;
  }

  lemma BeginShut(cfg: Config, s: State, w: nat, u: Task, c: Ctx, t: Task)
    requires cfg.g.Valid() && Enabled(cfg, s, Begin(w, u)) && Shut(s, c, t)
    ensures var s' := Next(cfg, s, Begin(w, u)); Shut(s', c, t) && (t in s'.ctxs[c].started <==> t in s.ctxs[c].started)
  {
    BeginIs(cfg, s, w, u);
    hide Next;
  }

  lemma FinishShut(cfg: Config, s: State, w: nat, u: Task, chosen: set<Task>, c: Ctx, t: Task)
    requires cfg.g.Valid() && Enabled(cfg, s, Finish(w, u, chosen)) && Shut(s, c, t)
    ensures var s' := Next(cfg, s, Finish(w, u, chosen)); Shut(s', c, t) && (t in s'.ctxs[c].started <==> t in s.ctxs[c].started)
  {
    FinishIs(cfg, s, w, u, chosen);
    AfterTaskGrows(cfg, s.ctxs[s.workers[w].ctx], u, chosen);
    AfterTaskNotes(cfg, s.ctxs[s.workers[w].ctx], u, chosen);
    hide Next, AfterTask, MaskBy, MayPick;
  }

  lemma OtherShut(cfg: Config, s: State, step: Step, c: Ctx, t: Task)
    requires cfg.g.Valid() && Enabled(cfg, s, step) && !step.Begin? && !step.Finish? && !step.Take? && Shut(s, c, t)
    ensures var s' := Next(cfg, s, step); Shut(s', c, t) && s'.ctxs[c].started == s.ctxs[c].started
  {
  }

  lemma StepShut(cfg: Config, inputs: seq<Ctx>, s: State, step: Step, c: Ctx, t: Task)
    requires Inv(cfg, inputs, s) && Enabled(cfg, s, step) && Shut(s, c, t)
    ensures Shut(Next(cfg, s, step), c, t)
    ensures t in Next(cfg, s, step).ctxs[c].started <==> t in s.ctxs[c].started
  {
    assert cfg.g.Valid();
    match step {
      case Take(w, i) =>
        var s' := TakeShape(cfg, inputs, s, w, i);
        assert s.queue[i] in s.queue && InLine(cfg, s, s.queue[i]);
        hide Inv, TakeMove, InLine, GoodConfig;
        TakeShut(cfg, s, s', w, i, c, t);
      case Begin(w, u) =>
        hide Inv, Next, Shut;
        BeginShut(cfg, s, w, u, c, t);
      case Finish(w, u, chosen) =>
        hide Inv, Next, Shut;
        FinishShut(cfg, s, w, u, chosen, c, t);
      case _ =>
        hide Inv, Next, Shut;
        OtherShut(cfg, s, step, c, t);
    }
  }

  lemma {:induction false} RunShut(cfg: Config, inputs: seq<Ctx>, s: State, steps: seq<Step>, c: Ctx, t: Task)
    requires Inv(cfg, inputs, s) && IsRun(cfg, s, steps) && Shut(s, c, t)
    ensures var e := After(cfg, s, steps); c in e.ctxs && (t in e.ctxs[c].started <==> t in s.ctxs[c].started)
    decreases |steps|
  {
    assert cfg.g.Valid();
    hide Shut, Inv, Next, Enabled;
    ShutKnown(s, c, t);
    if steps != [] {
      StepInv(cfg, inputs, s, steps[0]);
      StepShut(cfg, inputs, s, steps[0], c, t);
      RunShut(cfg, inputs, Next(cfg, s, steps[0]), steps[1..], c, t);
    }
  }

  /** A masked task that no batch under way is about to start is never started again, whatever the workers do and
      whatever the routers pick. */
  lemma MaskedStaysOut(cfg: Config, inputs: seq<Ctx>, n: nat, before: seq<Step>, s: State, steps: seq<Step>, c: Ctx, t: Task)
    requires Reached(cfg, inputs, n, before, s) && IsRun(cfg, s, steps)
    requires c in s.ctxs && t in s.ctxs[c].masked
    requires forall w :: 0 <= w < |s.workers| && s.workers[w].Batch? && s.workers[w].ctx == c ==> t !in s.workers[w].todo
    ensures var e := After(cfg, s, steps); c in e.ctxs && (Start(c, t) in e.trace ==> Start(c, t) in s.trace)
  {
    ReachedInv(cfg, inputs, n, before, s);
    MaskedIsCompleted(cfg, inputs, s, c);
    RunShut(cfg, inputs, s, steps, c, t);
    RunInv(cfg, inputs, s, steps);
    var e := After(cfg, s, steps);
    hide GoodConfig, Owned, PlacesOk, Counts, UpstreamDone, Once, Reached, IsRun, After;
    assert Recorded(s) && Recorded(e);
  }

  /** Wherever a context is, what was masked on it is completed. */
  lemma MaskedIsCompleted(cfg: Config, inputs: seq<Ctx>, s: State, c: Ctx)
    requires Inv(cfg, inputs, s) && c in s.ctxs
    ensures s.ctxs[c].masked <= s.ctxs[c].ts.completed
  {
    hide GoodConfig, Counts, TraceOk;
    if c in s.outputs {
      assert OutputOk(cfg, s.ctxs[c]);
    } else if c in s.queue {
      assert InLine(cfg, s, c);
    } else {
      var w :| 0 <= w < |s.workers| && Holds(s.workers[w], c);
      assert BatchOk(cfg, s.ctxs[c], s.workers[w]);
    }
  }

  lemma ShutKnown(s: State, c: Ctx, t: Task)
    requires Shut(s, c, t)
    ensures c in s.ctxs
  {
  }

  /** Nothing has been masked. */
  ghost predicate Unmasked(s: State) {
    forall c :: c in s.ctxs ==> s.ctxs[c].masked == {}
  }

  lemma StepUnmasked(cfg: Config, s: State, step: Step)
    requires cfg.g.Valid() && Enabled(cfg, s, step) && Unmasked(s)
    requires step.Finish? ==> MaskBy(cfg, step.task, step.chosen) == {}
    ensures Unmasked(Next(cfg, s, step))
  {
    hide MaskBy;
  }

  lemma {:induction false} RunUnmasked(cfg: Config, s: State, steps: seq<Step>)
    requires cfg.g.Valid() && IsRun(cfg, s, steps) && Unmasked(s) && cfg.routers == {}
    ensures Unmasked(After(cfg, s, steps))
    decreases |steps|
  {
    if steps != [] {
      StepUnmasked(cfg, s, steps[0]);
      hide Enabled, Next, Unmasked;
      RunUnmasked(cfg, Next(cfg, s, steps[0]), steps[1..]);
    }
  }

  /** Without routers every task is started and done on every input. */
  lemma AllTasks(cfg: Config, inputs: seq<Ctx>, n: nat, steps: seq<Step>, s: State)
    requires Reached(cfg, inputs, n, steps, s) && n > 0 && cfg.routers == {}
    requires forall w :: 0 <= w < |s.workers| ==> s.workers[w].Stopped?
    ensures forall c, t :: c in inputs && t in cfg.g.nodes && t != cfg.source ==> Start(c, t) in s.trace && DoneIn(s.trace, c, t)
  {
    assert cfg.g.Valid();
    RunUnmasked(cfg, Init(cfg, inputs, n), steps);
    AllOutputs(cfg, inputs, n, steps, s);
    assert Built(cfg.g, cfg.source, cfg.sink) && Unmasked(s);
    hide Reached, GoodConfig, Built, Graph.Valid, IsRun, After, DoneIn, OpenLine;
    forall c, t | c in inputs && t in cfg.g.nodes && t != cfg.source
      ensures Start(c, t) in s.trace && DoneIn(s.trace, c, t)
    {
      EveryLineOpen(cfg.g, cfg.source, cfg.sink, t);
      assert c in s.ctxs && s.ctxs[c].masked == {};
    }
  }

  lemma EveryLineOpen(g: Graph, source: Task, sink: Task, t: Task)
    requires Built(g, source, sink) && t in g.nodes
    ensures OpenLine(g, {}, t, sink)
  {
    assert OpenPath(g, {}, [t]);
    OpenOn(g, source, sink, {}, t, t);
  }

  // ---------------------------------------------------------------- one worker

  function Held(k: Worker): seq<Ctx> {
    if k.Batch? then [k.ctx] else []
  }

  /** The queued contexts that were not put out yet. */
  function ToCome(queue: seq<Ctx>, outputs: seq<Ctx>): seq<Ctx> {
    if queue == [] then []
    else (if queue[0] in outputs then [] else [queue[0]]) + ToCome(queue[1..], outputs)
  }

  /** The contexts already put out, the one in hand and the queued ones still to come are the inputs, in order. */
  ghost predicate Ordered(inputs: seq<Ctx>, s: State) {
    |s.workers| == 1 && s.outputs + Held(s.workers[0]) + ToCome(s.queue, s.outputs) == inputs
  }

  lemma {:induction false} ToComeAfter(queue: seq<Ctx>, outputs: seq<Ctx>, x: Ctx)
    requires x !in queue
    ensures ToCome(queue, outputs + [x]) == ToCome(queue, outputs)
  {
    if queue != [] {
      ToComeAfter(queue[1..], outputs, x);
    }
  }

  lemma {:induction false} AllToCome(queue: seq<Ctx>, outputs: seq<Ctx>)
    requires forall c :: c in queue ==> c !in outputs
    ensures ToCome(queue, outputs) == queue
  {
    if queue != [] {
      AllToCome(queue[1..], outputs);
    }
  }

  lemma {:induction false} NoneToCome(queue: seq<Ctx>, outputs: seq<Ctx>)
    requires Elems(queue) <= Elems(outputs)
    ensures ToCome(queue, outputs) == []
  {
    if queue != [] {
      assert queue[0] in Elems(queue) && Elems(queue[1..]) <= Elems(queue);
      NoneToCome(queue[1..], outputs);
    }
  }

  /** Every get hands out what is first in the queue. */
  predicate FirstOnly(steps: seq<Step>) {
    forall a :: a in steps && a.Take? ==> a.i == 0
  }

  lemma TakeOrdered(cfg: Config, inputs: seq<Ctx>, s: State)
    requires Inv(cfg, inputs, s) && Enabled(cfg, s, Take(0, 0)) && Ordered(inputs, s)
    ensures Ordered(inputs, Next(cfg, s, Take(0, 0)))
  {
    var s' := TakeShape(cfg, inputs, s, 0, 0);
    HeadOut(cfg, inputs, s, s.queue[0]);
    hide Inv, Next, Enabled;
    TakenOrdered(cfg, inputs, s, s');
  }

  lemma TakenOrdered(cfg: Config, inputs: seq<Ctx>, s: State, s': State)
    requires GoodConfig(cfg) && TakeMove(cfg, s, s', 0, 0) && Ordered(inputs, s)
    requires s.queue[0] in s.outputs <==> !s.ctxs[s.queue[0]].alive
    ensures Ordered(inputs, s')
  {
    hide GoodConfig, BatchOk, ToCome;
    var c, rest := s.queue[0], s.queue[1..];
    assert s.queue == [c] + rest && s'.queue == rest;
    ToComeCons(c, rest, s.outputs);
    ShiftOne(s.outputs, c, ToCome(rest, s.outputs));
  }

  lemma ShiftOne(a: seq<Ctx>, x: Ctx, b: seq<Ctx>)
    ensures a + [] + ([x] + b) == a + [x] + b == (a + [x]) + [] + b
  {
  }

  /** A queued context was put out exactly if it is destroyed. */
  lemma HeadOut(cfg: Config, inputs: seq<Ctx>, s: State, c: Ctx)
    requires Inv(cfg, inputs, s) && c in s.queue
    ensures c in s.ctxs && (c in s.outputs <==> !s.ctxs[c].alive)
  {
    hide GoodConfig, Owned, Counts, TraceOk, TasksOk, BatchOk;
    assert InLine(cfg, s, c);
    assert c in s.outputs ==> OutputOk(cfg, s.ctxs[c]);
  }

  lemma EndOrdered(cfg: Config, inputs: seq<Ctx>, s: State)
    requires Inv(cfg, inputs, s) && Enabled(cfg, s, EndBatch(0)) && Ordered(inputs, s)
    ensures Ordered(inputs, Next(cfg, s, EndBatch(0)))
  {
    var s', x := EndBatchShape(cfg, inputs, s, 0);
    HeldIsAway(inputs, s, 0);
    hide Inv, Next, Enabled;
    EndedOrdered(cfg, inputs, s, s', x);
  }

  lemma EndedOrdered(cfg: Config, inputs: seq<Ctx>, s: State, s': State, x: Ctx)
    requires GoodConfig(cfg) && EndMove(cfg, s, s', 0, x) && Ordered(inputs, s) && x !in s.queue && x !in s.outputs
    ensures Ordered(inputs, s')
  {
    hide GoodConfig, OutputOk, QueuedOk;
    ToComeAfter(s.queue, s.outputs, x);
    hide ToCome;
    ShiftOne(s.outputs, x, ToCome(s.queue, s.outputs));
    ToComeCons(x, s.queue, s.outputs);
    ToComeCons(x, s.queue, s.outputs + [x]);
  }

  lemma ToComeCons(x: Ctx, queue: seq<Ctx>, outputs: seq<Ctx>)
    ensures ToCome([x] + queue, outputs) == if x in outputs then ToCome(queue, outputs) else [x] + ToCome(queue, outputs)
  {
    assert ([x] + queue)[1..] == queue;
  }

  lemma HeldIsAway(inputs: seq<Ctx>, s: State, w: nat)
    requires Owned(inputs, s) && w < |s.workers| && s.workers[w].Batch?
    ensures s.workers[w].ctx !in s.queue && s.workers[w].ctx !in s.outputs
  {
  }

  lemma MoveOrdered(cfg: Config, inputs: seq<Ctx>, s: State, step: Step)
    requires Inv(cfg, inputs, s) && Enabled(cfg, s, step) && Ordered(inputs, s) && step.w == 0
    requires step.Begin? || step.SinkMark? || step.SinkCount? || step.Finish?
    ensures Ordered(inputs, Next(cfg, s, step))
  {
    InBatch(cfg, inputs, s, step);
    hide Inv, Next, GoodConfig;
  }

  lemma IdleOrdered(cfg: Config, inputs: seq<Ctx>, s: State, step: Step)
    requires cfg.g.Valid() && Enabled(cfg, s, step) && Ordered(inputs, s)
    requires step.Check? || step.Timeout? || step.DropCount?
    ensures Ordered(inputs, Next(cfg, s, step))
  {
  }

  lemma StepOrdered(cfg: Config, inputs: seq<Ctx>, s: State, step: Step)
    requires Inv(cfg, inputs, s) && Enabled(cfg, s, step) && Ordered(inputs, s) && (step.Take? ==> step.i == 0)
    ensures Ordered(inputs, Next(cfg, s, step))
  {
    assert cfg.g.Valid() && step.w == 0;
    hide Inv, Next, Ordered;
    match step
    case Take(_, _) => TakeOrdered(cfg, inputs, s);
    case EndBatch(_) => EndOrdered(cfg, inputs, s);
    case Check(_) => IdleOrdered(cfg, inputs, s, step);
    case Timeout(_) => IdleOrdered(cfg, inputs, s, step);
    case DropCount(_) => IdleOrdered(cfg, inputs, s, step);
    case _ => MoveOrdered(cfg, inputs, s, step);
  }

  lemma {:induction false} RunOrdered(cfg: Config, inputs: seq<Ctx>, s: State, steps: seq<Step>)
    requires Inv(cfg, inputs, s) && IsRun(cfg, s, steps) && Ordered(inputs, s) && FirstOnly(steps)
    ensures Ordered(inputs, After(cfg, s, steps))
    decreases |steps|
  {
    if steps != [] {
      StepInv(cfg, inputs, s, steps[0]);
      StepOrdered(cfg, inputs, s, steps[0]);
      hide Inv, Ordered;
      RunOrdered(cfg, inputs, Next(cfg, s, steps[0]), steps[1..]);
    }
  }

  /** A single worker finishes each context before it begins the next, as a context it was given goes back to the
      front of the queue: at all times the outputs are the first inputs, in order, and at the end all of them. */
  lemma OneWorkerInOrder(cfg: Config, inputs: seq<Ctx>, steps: seq<Step>, s: State)
    requires Reached(cfg, inputs, 1, steps, s) && FirstOnly(steps)
    ensures s.outputs <= inputs
    ensures |s.workers| == 1 && (s.workers[0].Stopped? ==> s.outputs == inputs)
  {
    ReachedOrdered(cfg, inputs, steps, s);
    StopOnlyWhenNoneLive(cfg, inputs, 1, steps, s, 0);
    hide Reached, Live, Owing;
    OrderedMeans(inputs, s);
  }

  lemma OrderedMeans(inputs: seq<Ctx>, s: State)
    requires Ordered(inputs, s)
    ensures s.outputs <= inputs
    ensures s.workers[0].Stopped? && Elems(s.queue) <= Elems(s.outputs) ==> s.outputs == inputs
  {
    var ahead := ToCome(s.queue, s.outputs);
    assert s.outputs + (Held(s.workers[0]) + ahead) == inputs;
    if s.workers[0].Stopped? && Elems(s.queue) <= Elems(s.outputs) {
      NoneToCome(s.queue, s.outputs);
    }
  }

  lemma ReachedOrdered(cfg: Config, inputs: seq<Ctx>, steps: seq<Step>, s: State)
    requires Reached(cfg, inputs, 1, steps, s) && FirstOnly(steps)
    ensures Ordered(inputs, s)
  {
    assert cfg.g.Valid() && cfg.source in cfg.g.nodes;
    hide Inv, GoodConfig, Init, Ordered;
    InitInv(cfg, inputs, 1);
    InitOrdered(cfg, inputs);
    RunOrdered(cfg, inputs, Init(cfg, inputs, 1), steps);
  }

  lemma InitOrdered(cfg: Config, inputs: seq<Ctx>)
    requires GoodConfig(cfg)
    ensures Ordered(inputs, Init(cfg, inputs, 1))
  {
    AllToCome(inputs, []);
    assert [] + Held(Init(cfg, inputs, 1).workers[0]) + inputs == inputs;
  }

  // ---------------------------------------------------------------- bounded work

  ghost function Left(cfg: Config, c: CtxState): nat {
    |cfg.g.nodes - c.ts.completed|
  }

  /** Work left on a context inside a batch: four steps for each task the batch leaves, two for each it has yet to start,
      one for each it has yet to finish, and what the sink and the end of the batch need. */
  ghost function BatchWeight(cfg: Config, c: CtxState, k: Worker): nat
    requires k.Batch?
  {
    4 * |cfg.g.nodes - c.ts.completed - k.batch| + 2 * |k.todo| + |k.inflight| + EndWeight(cfg, k)
  }

  ghost function EndWeight(cfg: Config, k: Worker): nat
    requires k.Batch?
  {
    if cfg.sink !in k.batch then 3
    else (match k.stage case Fresh => 2 case Marked => 1 case Counted => 0) + (if k.batch == {cfg.sink} then 1 else 2)
  }

  ghost function WorkerWeight(cfg: Config, ctxs: map<Ctx, CtxState>, k: Worker): nat {
    if k.Stopped? then 0
    else if k.Batch? && k.ctx in ctxs then 1 + BatchWeight(cfg, ctxs[k.ctx], k)
    else 1
  }

  /** A destroyed context is taken once more and skipped. */
  ghost function CtxWeight(cfg: Config, c: CtxState): nat {
    if c.alive then 4 * Left(cfg, c) + 2 else 1
  }

  ghost function QueueWeight(cfg: Config, ctxs: map<Ctx, CtxState>, q: seq<Ctx>): nat {
    if q == [] then 0
    else (if q[0] in ctxs then CtxWeight(cfg, ctxs[q[0]]) else 0) + QueueWeight(cfg, ctxs, q[1..])
  }

  ghost function WorkersWeight(cfg: Config, ctxs: map<Ctx, CtxState>, ks: seq<Worker>): nat {
    if ks == [] then 0 else WorkerWeight(cfg, ctxs, ks[0]) + WorkersWeight(cfg, ctxs, ks[1..])
  }

  /** An upper bound on the steps still to come that are not idle polls of the queue. */
  ghost function Weight(cfg: Config, s: State): nat {
    QueueWeight(cfg, s.ctxs, s.queue) + WorkersWeight(cfg, s.ctxs, s.workers)
  }

  /** All steps but an expired wait and a successful look at the counter. */
  predicate Works(s: State, step: Step) {
    !step.Timeout? && (step.Check? ==> s.counter <= 0)
  }

  lemma {:induction false} QueueWeightSplit(cfg: Config, ctxs: map<Ctx, CtxState>, p: seq<Ctx>, q: seq<Ctx>)
    ensures QueueWeight(cfg, ctxs, p + q) == QueueWeight(cfg, ctxs, p) + QueueWeight(cfg, ctxs, q)
  {
    if p == [] {
      assert p + q == q;
    } else {
      assert (p + q)[1..] == p[1..] + q && (p + q)[0] == p[0];
      QueueWeightSplit(cfg, ctxs, p[1..], q);
    }
  }

  lemma {:induction false} QueueWeightFrame(cfg: Config, a: map<Ctx, CtxState>, b: map<Ctx, CtxState>, q: seq<Ctx>)
    requires forall c :: c in q ==> c in a && c in b && a[c] == b[c]
    ensures QueueWeight(cfg, a, q) == QueueWeight(cfg, b, q)
  {
    if q != [] {
      QueueWeightFrame(cfg, a, b, q[1..]);
    }
  }

  lemma {:induction false} WorkersWeightSplit(cfg: Config, ctxs: map<Ctx, CtxState>, p: seq<Worker>, q: seq<Worker>)
    ensures WorkersWeight(cfg, ctxs, p + q) == WorkersWeight(cfg, ctxs, p) + WorkersWeight(cfg, ctxs, q)
  {
    if p == [] {
      assert p + q == q;
    } else {
      assert (p + q)[1..] == p[1..] + q && (p + q)[0] == p[0];
      WorkersWeightSplit(cfg, ctxs, p[1..], q);
    }
  }

  lemma {:induction false} WorkersWeightFrame(cfg: Config, a: map<Ctx, CtxState>, b: map<Ctx, CtxState>, ks: seq<Worker>)
    requires a.Keys == b.Keys && forall w :: 0 <= w < |ks| && ks[w].Batch? && ks[w].ctx in a ==> a[ks[w].ctx] == b[ks[w].ctx]
    ensures WorkersWeight(cfg, a, ks) == WorkersWeight(cfg, b, ks)
  {
    if ks != [] {
      WorkersWeightFrame(cfg, a, b, ks[1..]);
    }
  }

  lemma WorkersWeightAt(cfg: Config, ctxs: map<Ctx, CtxState>, ks: seq<Worker>, w: nat, k: Worker)
    requires w < |ks|
    ensures WorkersWeight(cfg, ctxs, ks[w := k]) == WorkersWeight(cfg, ctxs, ks) - WorkerWeight(cfg, ctxs, ks[w]) + WorkerWeight(cfg, ctxs, k)
  {
    var p, q := ks[..w], ks[w + 1..];
    assert ks == p + ([ks[w]] + q) && ks[w := k] == p + ([k] + q);
    WorkersWeightSplit(cfg, ctxs, p, [ks[w]] + q);
    WorkersWeightSplit(cfg, ctxs, p, [k] + q);
    assert ([ks[w]] + q)[1..] == q && ([k] + q)[1..] == q;
  }

  /** A step inside a batch changes the weight by the weight of that batch alone. */
  lemma BatchMoveWeight(cfg: Config, inputs: seq<Ctx>, s: State, s': State, w: nat)
    requires Owned(inputs, s) && BatchMove(s, s', w)
    ensures var x := s.workers[w].ctx;
      Weight(cfg, s') - Weight(cfg, s)
        == BatchWeight(cfg, s'.ctxs[x], s'.workers[w]) - BatchWeight(cfg, s.ctxs[x], s.workers[w])
  {
    var x := s.workers[w].ctx;
    QueueWeightFrame(cfg, s.ctxs, s'.ctxs, s.queue) by {
      forall c | c in s.queue ensures c in s.ctxs && c != x { assert c in Elems(s.queue); }
    }
    var idle := s.workers[w := Checking];
    WorkersWeightAt(cfg, s.ctxs, s.workers, w, Checking);
    WorkersWeightFrame(cfg, s.ctxs, s'.ctxs, idle);
    WorkersWeightAt(cfg, s'.ctxs, idle, w, s'.workers[w]);
    assert idle[w := s'.workers[w]] == s'.workers;
  }

  lemma CardMinusOne<T>(a: set<T>, b: set<T>, x: T)
    requires x in a && b == a - {x}
    ensures |b| == |a| - 1
  {
  }

  lemma BeginWeight(cfg: Config, c: CtxState, k: Worker, t: Task)
    requires k.Batch? && t in k.todo && t !in k.inflight
    ensures BatchWeight(cfg, c.(started := c.started + {t}), k.(todo := k.todo - {t}, inflight := k.inflight + {t})) < BatchWeight(cfg, c, k)
  {
  }

  lemma FinishWeight(cfg: Config, c: CtxState, c': CtxState, k: Worker, t: Task)
    requires k.Batch? && t in k.inflight && c.ts.completed <= c'.ts.completed
    ensures BatchWeight(cfg, c', k.(inflight := k.inflight - {t})) < BatchWeight(cfg, c, k)
  {
    Subcard(cfg.g.nodes - c'.ts.completed - k.batch, cfg.g.nodes - c.ts.completed - k.batch);
  }

  /** The weight of the batch falls from (c, k) to (c', k') in each of the four steps. */
  ghost predicate Lighter(cfg: Config, s: State, s': State, w: nat)
    requires BatchMove(s, s', w)
  {
    BatchWeight(cfg, s'.ctxs[s.workers[w].ctx], s'.workers[w]) < BatchWeight(cfg, s.ctxs[s.workers[w].ctx], s.workers[w])
  }

  lemma BeginLighter(cfg: Config, inputs: seq<Ctx>, s: State, w: nat, t: Task)
    requires Inv(cfg, inputs, s) && Enabled(cfg, s, Begin(w, t))
    ensures var s' := Next(cfg, s, Begin(w, t)); BatchMove(s, s', w) && Lighter(cfg, s, s', w)
  {
    InBatch(cfg, inputs, s, Begin(w, t));
    BeginIs(cfg, s, w, t);
    hide Inv, GoodConfig, TasksOk, BatchWeight, Next, SinkOk;
    BeginWeight(cfg, s.ctxs[s.workers[w].ctx], s.workers[w], t);
  }

  lemma FinishLighter(cfg: Config, inputs: seq<Ctx>, s: State, w: nat, t: Task, chosen: set<Task>)
    requires Inv(cfg, inputs, s) && Enabled(cfg, s, Finish(w, t, chosen))
    ensures var s' := Next(cfg, s, Finish(w, t, chosen)); BatchMove(s, s', w) && Lighter(cfg, s, s', w)
  {
    InBatch(cfg, inputs, s, Finish(w, t, chosen));
    FinishIs(cfg, s, w, t, chosen);
    AfterTaskGrows(cfg, s.ctxs[s.workers[w].ctx], t, chosen);
    hide Inv, GoodConfig, TasksOk, BatchWeight, Next, AfterTask, BatchOk;
    FinishWeight(cfg, s.ctxs[s.workers[w].ctx], AfterTask(cfg, s.ctxs[s.workers[w].ctx], t, chosen), s.workers[w], t);
  }

  lemma AfterTaskGrows(cfg: Config, c: CtxState, t: Task, chosen: set<Task>)
    requires cfg.g.Valid()
    ensures c.ts.completed <= AfterTask(cfg, c, t, chosen).ts.completed
  {
  }

  /** A batch whose sink is running or has marked its context. */
  lemma SinkBusy(cfg: Config, c: CtxState, k: Worker)
    requires GoodConfig(cfg) && k.Batch? && BatchOk(cfg, c, k)
    ensures cfg.sink in k.inflight || k.stage.Marked? ==> cfg.sink in k.batch
    ensures c.alive <==> k.stage.Fresh?
  {
    hide GoodConfig, TasksOk;
  }

  lemma StageWeight(cfg: Config, c: CtxState, c': CtxState, k: Worker, stage: SinkStage)
    requires k.Batch? && cfg.sink in k.batch && c'.ts == c.ts
    requires (k.stage.Fresh? && stage.Marked?) || (k.stage.Marked? && stage.Counted?)
    ensures BatchWeight(cfg, c', k.(stage := stage)) < BatchWeight(cfg, c, k)
  {
  }

  lemma MarkIs(cfg: Config, s: State, w: nat)
    requires cfg.g.Valid() && Enabled(cfg, s, SinkMark(w)) && s.ctxs[s.workers[w].ctx].alive
    ensures var s', k := Next(cfg, s, SinkMark(w)), s.workers[w];
      s'.workers[w] == k.(stage := Marked) && s'.ctxs == s.ctxs[k.ctx := s.ctxs[k.ctx].(alive := false)]
  {
  }

  lemma CountIs(cfg: Config, s: State, w: nat)
    requires cfg.g.Valid() && Enabled(cfg, s, SinkCount(w))
    ensures var s', k := Next(cfg, s, SinkCount(w)), s.workers[w]; s'.workers[w] == k.(stage := Counted) && s'.ctxs == s.ctxs
  {
  }

  lemma SinkMarkLighter(cfg: Config, inputs: seq<Ctx>, s: State, w: nat)
    requires Inv(cfg, inputs, s) && Enabled(cfg, s, SinkMark(w))
    ensures var s' := Next(cfg, s, SinkMark(w)); BatchMove(s, s', w) && Lighter(cfg, s, s', w)
  {
    InBatch(cfg, inputs, s, SinkMark(w));
    var k := s.workers[w];
    hide Inv, BatchOk, Next, BatchWeight, BatchMove, GoodConfig;
    SinkBusy(cfg, s.ctxs[k.ctx], k);
    MarkIs(cfg, s, w);
    StageWeight(cfg, s.ctxs[k.ctx], s.ctxs[k.ctx].(alive := false), k, Marked);
  }

  lemma SinkCountLighter(cfg: Config, inputs: seq<Ctx>, s: State, w: nat)
    requires Inv(cfg, inputs, s) && Enabled(cfg, s, SinkCount(w))
    ensures var s' := Next(cfg, s, SinkCount(w)); BatchMove(s, s', w) && Lighter(cfg, s, s', w)
  {
    InBatch(cfg, inputs, s, SinkCount(w));
    var k := s.workers[w];
    hide Inv, BatchOk, Next, BatchWeight, BatchMove, GoodConfig;
    SinkBusy(cfg, s.ctxs[k.ctx], k);
    CountIs(cfg, s, w);
    StageWeight(cfg, s.ctxs[k.ctx], s.ctxs[k.ctx], k, Counted);
  }

  /** Leaving a batch: the context is queued again with the batch completed, or is finished. */
  lemma EndBatchWeight(cfg: Config, inputs: seq<Ctx>, s: State, w: nat)
    requires Inv(cfg, inputs, s) && Enabled(cfg, s, EndBatch(w))
    ensures Weight(cfg, Next(cfg, s, EndBatch(w))) < Weight(cfg, s)
  {
    BatchAt(cfg, inputs, s, w);
    var s', x := EndBatchShape(cfg, inputs, s, w);
    hide *;
    EndedAt(cfg, s, w);
    EndsWith(cfg, s, s', w, x);
    MoveWeight(cfg, s, s', w, x);
  }

  lemma EndedAt(cfg: Config, s: State, w: nat)
    requires AtBatch(cfg, s, w) && Enabled(cfg, s, EndBatch(w))
    ensures GoodConfig(cfg) && w < |s.workers| && s.workers[w].Batch? && s.workers[w].ctx in s.ctxs
    ensures var c, k := s.ctxs[s.workers[w].ctx], s.workers[w];
      BatchWeight(cfg, c, k) >= 1 && (k.batch != {cfg.sink} ==> BatchWeight(cfg, c, k) > CtxWeight(cfg, c))
  {
    hide GoodConfig, BatchOk, BatchWeight, CtxWeight;
    EndedWeight(cfg, s.ctxs[s.workers[w].ctx], s.workers[w]);
  }

  lemma EndsWith(cfg: Config, s: State, s': State, w: nat, x: Ctx)
    requires GoodConfig(cfg) && EndMove(cfg, s, s', w, x)
    ensures w < |s.workers| && s.workers[w].Batch? && x == s.workers[w].ctx && x in s.ctxs
  {
    hide GoodConfig, OutputOk, QueuedOk;
  }

  lemma MoveWeight(cfg: Config, s: State, s': State, w: nat, x: Ctx)
    requires GoodConfig(cfg) && EndMove(cfg, s, s', w, x)
    requires BatchWeight(cfg, s.ctxs[x], s.workers[w]) >= 1
    requires s.workers[w].batch != {cfg.sink} ==> BatchWeight(cfg, s.ctxs[x], s.workers[w]) > CtxWeight(cfg, s.ctxs[x])
    ensures Weight(cfg, s') < Weight(cfg, s)
  {
    hide GoodConfig, OutputOk, QueuedOk, BatchWeight, CtxWeight;
    WorkersWeightAt(cfg, s.ctxs, s.workers, w, Checking);
    assert ([x] + s.queue)[1..] == s.queue;
  }

  lemma EndedWeight(cfg: Config, c: CtxState, k: Worker)
    requires GoodConfig(cfg) && k.Batch? && BatchOk(cfg, c, k) && k.todo == {} && k.inflight == {}
    ensures BatchWeight(cfg, c, k) >= 1
    ensures k.batch != {cfg.sink} ==> BatchWeight(cfg, c, k) > CtxWeight(cfg, c)
  {
    hide GoodConfig, BatchOk, TasksOk;
    EndBatchPlace(cfg, c, k);
    if cfg.sink !in k.batch {
      BatchIsDone(cfg, c, k);
      assert cfg.g.nodes - c.ts.completed - k.batch == cfg.g.nodes - c.ts.completed;
    }
  }

  lemma BatchIsDone(cfg: Config, c: CtxState, k: Worker)
    requires GoodConfig(cfg) && k.Batch? && BatchOk(cfg, c, k) && k.todo == {} && k.inflight == {} && cfg.sink !in k.batch
    ensures k.batch <= c.ts.completed
  {
    hide GoodConfig, Exact;
    assert k.batch <= c.finished;
  }

  lemma TakenWeight(cfg: Config, c: CtxState, k: Worker)
    requires GoodConfig(cfg) && QueuedOk(cfg, c) && k.Batch? && k.stage == Fresh
    requires k.todo == k.batch == c.ts.available != {} && k.inflight == {}
    ensures BatchWeight(cfg, c, k) < CtxWeight(cfg, c)
  {
    AvailableCard(cfg.g, c.ts);
    assert c.alive;
    hide GoodConfig, QueuedOk;
    if |k.batch| == 1 && cfg.sink in k.batch {
      OnlyOne(k.batch, cfg.sink);
    }
  }

  lemma AvailableCard(g: Graph, ts: TState)
    requires g.Valid() && Exact(g, ts)
    ensures |g.nodes - ts.completed| == |g.nodes - ts.completed - ts.available| + |ts.available|
  {
    assert g.nodes - ts.completed == (g.nodes - ts.completed - ts.available) + ts.available;
  }

  lemma OnlyOne<T>(s: set<T>, x: T)
    requires |s| == 1 && x in s
    ensures s == {x}
  {
    assert |s - {x}| == 0;
  }

  lemma TakeWeight(cfg: Config, inputs: seq<Ctx>, s: State, w: nat, i: nat)
    requires Inv(cfg, inputs, s) && Enabled(cfg, s, Take(w, i))
    ensures Weight(cfg, Next(cfg, s, Take(w, i))) < Weight(cfg, s)
  {
    var s' := TakeShape(cfg, inputs, s, w, i);
    assert s.queue[i] in s.queue && InLine(cfg, s, s.queue[i]);
    hide Inv, Next, Enabled;
    TakenLighter(cfg, s, s', w, i);
    hide TakeMove, BatchOk, QueuedOk, OutputOk, BatchWeight, GoodConfig, CtxWeight, InLine, WorkerWeight;
    TakenFrame(cfg, s, s', w, i);
    WorkersWeightAt(cfg, s.ctxs, s.workers, w, s'.workers[w]);
    RemovedWeight(cfg, s.ctxs, s.queue, i);
  }

  lemma TakenFrame(cfg: Config, s: State, s': State, w: nat, i: nat)
    requires GoodConfig(cfg) && TakeMove(cfg, s, s', w, i)
    ensures w < |s.workers| == |s'.workers| && i < |s.queue| && s.queue[i] in s.ctxs
    ensures s'.workers == s.workers[w := s'.workers[w]] && s'.ctxs == s.ctxs && s'.queue == s.queue[..i] + s.queue[i + 1..]
  {
  }

  lemma TakenLighter(cfg: Config, s: State, s': State, w: nat, i: nat)
    requires GoodConfig(cfg) && TakeMove(cfg, s, s', w, i) && InLine(cfg, s, s.queue[i])
    ensures w < |s.workers| == |s'.workers| && i < |s.queue| && s.queue[i] in s.ctxs
    ensures WorkerWeight(cfg, s.ctxs, s'.workers[w])
      < WorkerWeight(cfg, s.ctxs, s.workers[w]) + CtxWeight(cfg, s.ctxs[s.queue[i]])
  {
    var c, k := s.ctxs[s.queue[i]], s'.workers[w];
    hide GoodConfig, QueuedOk, BatchWeight, Left;
    if c.alive {
      BatchHasTasks(cfg, c, k);
      hide BatchOk, CtxWeight;
      TakenWeight(cfg, c, k);
    }
  }

  lemma BatchHasTasks(cfg: Config, c: CtxState, k: Worker)
    requires GoodConfig(cfg) && k.Batch? && BatchOk(cfg, c, k)
    ensures k.batch != {}
  {
    hide GoodConfig, TasksOk, SinkOk;
  }

  lemma RemovedWeight(cfg: Config, ctxs: map<Ctx, CtxState>, l: seq<Ctx>, i: nat)
    requires i < |l| && l[i] in ctxs
    ensures QueueWeight(cfg, ctxs, l[..i] + l[i + 1..]) == QueueWeight(cfg, ctxs, l) - CtxWeight(cfg, ctxs[l[i]])
  {
    var p, q := l[..i], l[i + 1..];
    assert l == p + ([l[i]] + q);
    QueueWeightSplit(cfg, ctxs, p, [l[i]] + q);
    QueueWeightSplit(cfg, ctxs, p, q);
    assert ([l[i]] + q)[1..] == q;
  }

  lemma NobodyDrops(cfg: Config, inputs: seq<Ctx>, s: State)
    requires Inv(cfg, inputs, s)
    ensures cfg.g.Valid() && forall w :: 0 <= w < |s.workers| ==> !s.workers[w].Dropping?
  {
  }

  lemma PollWeight(cfg: Config, s: State, step: Step)
    requires cfg.g.Valid() && Enabled(cfg, s, step) && (step.Check? || step.Timeout?)
    ensures Works(s, step) ==> Weight(cfg, Next(cfg, s, step)) < Weight(cfg, s)
    ensures !Works(s, step) ==> Weight(cfg, Next(cfg, s, step)) == Weight(cfg, s)
  {
    hide Graph.Valid, QueueWeight, WorkersWeight;
    WorkersWeightAt(cfg, s.ctxs, s.workers, step.w, Next(cfg, s, step).workers[step.w]);
  }

  lemma BatchStepWeight(cfg: Config, inputs: seq<Ctx>, s: State, step: Step)
    requires Inv(cfg, inputs, s) && Enabled(cfg, s, step) && (step.Begin? || step.SinkMark? || step.SinkCount? || step.Finish?)
    ensures Weight(cfg, Next(cfg, s, step)) < Weight(cfg, s)
  {
    NobodyDrops(cfg, inputs, s);
    assert Owned(inputs, s);
    hide Inv, Graph.Valid, Next, Enabled, Weight, BatchWeight, BatchMove, Owned;
    match step
    case Begin(w, t) => BeginLighter(cfg, inputs, s, w, t); BatchMoveWeight(cfg, inputs, s, Next(cfg, s, step), w);
    case SinkMark(w) => SinkMarkLighter(cfg, inputs, s, w); BatchMoveWeight(cfg, inputs, s, Next(cfg, s, step), w);
    case SinkCount(w) => SinkCountLighter(cfg, inputs, s, w); BatchMoveWeight(cfg, inputs, s, Next(cfg, s, step), w);
    case Finish(w, t, chosen) =>
      FinishLighter(cfg, inputs, s, w, t, chosen);
      BatchMoveWeight(cfg, inputs, s, Next(cfg, s, step), w);
  }

  /** Working steps make the weight smaller, idle polls leave it alone. */
  lemma StepWeight(cfg: Config, inputs: seq<Ctx>, s: State, step: Step)
    requires Inv(cfg, inputs, s) && Enabled(cfg, s, step)
    ensures Works(s, step) ==> Weight(cfg, Next(cfg, s, step)) < Weight(cfg, s)
    ensures !Works(s, step) ==> Weight(cfg, Next(cfg, s, step)) == Weight(cfg, s)
  {
    NobodyDrops(cfg, inputs, s);
    hide Inv, Graph.Valid, Next, Weight;
    match step
    case Check(w) => PollWeight(cfg, s, step);
    case Timeout(w) => PollWeight(cfg, s, step);
    case Take(w, i) => TakeWeight(cfg, inputs, s, w, i);
    case DropCount(w) =>
    case EndBatch(w) => EndBatchWeight(cfg, inputs, s, w);
    case _ => BatchStepWeight(cfg, inputs, s, step);
  }

  lemma {:induction false} Subcard<T>(a: set<T>, b: set<T>)
    requires a <= b
    ensures |a| <= |b|
  {
    if a != {} {
      var x :| x in a;
      Subcard(a - {x}, b - {x});
    }
  }

  ghost function WorkSteps(cfg: Config, s: State, steps: seq<Step>): nat
    requires cfg.g.Valid() && IsRun(cfg, s, steps)
    decreases |steps|
  {
    if steps == [] then 0
    else (if Works(s, steps[0]) then 1 else 0) + WorkSteps(cfg, Next(cfg, s, steps[0]), steps[1..])
  }

  lemma {:induction false} WorkBounded(cfg: Config, inputs: seq<Ctx>, s: State, steps: seq<Step>)
    requires Inv(cfg, inputs, s) && IsRun(cfg, s, steps)
    ensures WorkSteps(cfg, s, steps) <= Weight(cfg, s)
    decreases |steps|
  {
    assert cfg.g.Valid();
    hide GoodConfig, Owned, PlacesOk, Counts, TraceOk, Enabled, Next, Weight, Works;
    if steps != [] {
      StepInv(cfg, inputs, s, steps[0]);
      StepWeight(cfg, inputs, s, steps[0]);
      WorkBounded(cfg, inputs, Next(cfg, s, steps[0]), steps[1..]);
    }
  }

  lemma {:induction false} InitQueueWeight(cfg: Config, ctxs: map<Ctx, CtxState>, q: seq<Ctx>, c: CtxState)
    requires forall x :: x in q ==> x in ctxs && ctxs[x] == c
    ensures QueueWeight(cfg, ctxs, q) == CtxWeight(cfg, c) * |q|
  {
    hide CtxWeight;
    if q != [] {
      InitQueueWeight(cfg, ctxs, q[1..], c);
    }
  }

  lemma {:induction false} InitWorkersWeight(cfg: Config, ctxs: map<Ctx, CtxState>, ks: seq<Worker>)
    requires forall w :: 0 <= w < |ks| ==> ks[w] == Checking
    ensures WorkersWeight(cfg, ctxs, ks) == |ks|
  {
    if ks != [] {
      InitWorkersWeight(cfg, ctxs, ks[1..]);
    }
  }

  /** However the workers interleave and whatever the routers pick, a run does at most 4 · (tasks − 1) + 2 steps of work
      per input and one per worker; everything else is polling. */
  lemma RunBound(cfg: Config, inputs: seq<Ctx>, n: nat, steps: seq<Step>)
    requires GoodConfig(cfg) && Distinct(inputs) && IsRun(cfg, Init(cfg, inputs, n), steps)
    ensures WorkSteps(cfg, Init(cfg, inputs, n), steps) <= (4 * (|cfg.g.nodes| - 1) + 2) * |inputs| + n
  {
    var s := Init(cfg, inputs, n);
    InitInv(cfg, inputs, n);
    WorkBounded(cfg, inputs, s, steps);
    InitWeight(cfg, inputs, n);
  }

  lemma InitWeight(cfg: Config, inputs: seq<Ctx>, n: nat)
    requires GoodConfig(cfg)
    ensures Weight(cfg, Init(cfg, inputs, n)) == (4 * (|cfg.g.nodes| - 1) + 2) * |inputs| + n
  {
    var s := Init(cfg, inputs, n);
    InitCtxOk(cfg);
    CardMinusOne(cfg.g.nodes, cfg.g.nodes - {cfg.source}, cfg.source);
    InitQueueWeight(cfg, s.ctxs, inputs, InitCtx(cfg));
    InitWorkersWeight(cfg, s.ctxs, s.workers);
  }
}
