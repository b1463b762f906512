/** How the tasks of a context share batches (shutils/dag/executor.py): task_worker_num bounds how many run at once, and
    without routers a context goes through the graph level by level. */
module ExecutorRounds {
  import opened Graphs
  import opened TaskStates
  import opened Executors
  import opened ExecutorRuns

  // ---------------------------------------------------------------- task_worker_num

  /** No batch runs more than task_worker_num tasks at once. */
  ghost predicate WithinLimit(cfg: Config, s: State) {
    cfg.limit > 0 ==> forall w :: 0 <= w < |s.workers| && s.workers[w].Batch? ==> |s.workers[w].inflight| <= cfg.limit
  }

  lemma StepWithinLimit(cfg: Config, s: State, step: Step)
    requires cfg.g.Valid() && Enabled(cfg, s, step) && WithinLimit(cfg, s)
    ensures WithinLimit(cfg, Next(cfg, s, step))
  {
    hide Graph.Valid, MaskBy, AfterTask;
  }

  lemma {:induction false} RunWithinLimit(cfg: Config, s: State, steps: seq<Step>)
    requires cfg.g.Valid() && IsRun(cfg, s, steps) && WithinLimit(cfg, s)
    ensures WithinLimit(cfg, After(cfg, s, steps))
    decreases |steps|
  {
    if steps != [] {
      StepWithinLimit(cfg, s, steps[0]);
      hide Enabled, Next, WithinLimit, Graph.Valid;
      RunWithinLimit(cfg, Next(cfg, s, steps[0]), steps[1..]);
    }
  }

  /** In every interleaving a batch runs at most task_worker_num tasks at once. */
  lemma InflightBounded(cfg: Config, inputs: seq<Ctx>, n: nat, steps: seq<Step>, s: State, w: nat)
    requires Reached(cfg, inputs, n, steps, s) && w < |s.workers| && s.workers[w].Batch?
    ensures cfg.limit > 0 ==> |s.workers[w].inflight| <= cfg.limit
  {
    assert cfg.g.Valid();
    assert WithinLimit(cfg, Init(cfg, inputs, n));
    RunWithinLimit(cfg, Init(cfg, inputs, n), steps);
  }

  /** And it can run any of the tasks it has yet to start together, as far as that number allows. */
  lemma {:induction false} RunTogether(cfg: Config, s: State, w: nat, ts: set<Task>) returns (steps: seq<Step>)
    requires cfg.g.Valid() && w < |s.workers| && s.workers[w].Batch? && s.workers[w].ctx in s.ctxs
    requires ts <= s.workers[w].todo && ts !! s.workers[w].inflight
    requires cfg.limit == 0 || |s.workers[w].inflight| + |ts| <= cfg.limit
    ensures IsRun(cfg, s, steps)
    ensures var e := After(cfg, s, steps);
      |e.workers| == |s.workers| && e.workers[w].Batch? && e.workers[w].inflight == s.workers[w].inflight + ts
    decreases ts
  {
    hide Graph.Valid, Next;
    steps := [];
    if ts != {} {
      var t :| t in ts;
      SetApart(s.workers[w].inflight, ts, t);
      hide IsRun, After;
      var m := Next(cfg, s, Begin(w, t));
      BeginIs(cfg, s, w, t);
      var rest := RunTogether(cfg, m, w, ts - {t});
      RunFirst(cfg, s, Begin(w, t), rest);
      steps := [Begin(w, t)] + rest;
    }
  }

  lemma SetApart(a: set<Task>, b: set<Task>, t: Task)
    requires t in b && a !! b
    ensures |b - {t}| == |b| - 1 && |a + {t}| == |a| + 1
    ensures (a + {t}) + (b - {t}) == a + b && (a + {t}) !! (b - {t})
  {
  }

  lemma RunFirst(cfg: Config, s: State, step: Step, rest: seq<Step>)
    requires cfg.g.Valid() && Enabled(cfg, s, step) && IsRun(cfg, Next(cfg, s, step), rest)
    ensures IsRun(cfg, s, [step] + rest) && After(cfg, s, [step] + rest) == After(cfg, Next(cfg, s, step), rest)
  {
    hide Enabled, Next;
    assert ([step] + rest)[1..] == rest;
  }

  // ---------------------------------------------------------------- levels

  /** A path of n edges leads from the source to t. */
  ghost predicate Chain(g: Graph, source: Task, t: Task, n: int)
    requires g.Valid()
  {
    n >= 0 && exists p :: IsPath(g, p) && |p| == n + 1 && p[0] == source && p[n] == t
  }

  /** The tasks that are completed after n rounds in which all ready tasks run. */
  ghost function Level(g: Graph, source: Task, n: nat): set<Task>
    requires g.Valid()
  {
    if n == 0 then {source} else Level(g, source, n - 1) + Ready(g, Level(g, source, n - 1))
  }

  lemma ChainGrows(g: Graph, source: Task, u: Task, t: Task, n: nat)
    requires g.Valid() && u in g.nodes && t in g.down[u] && Chain(g, source, u, n)
    ensures Chain(g, source, t, n + 1)
  {
    var p :| IsPath(g, p) && |p| == n + 1 && p[0] == source && p[n] == u;
    var q := p + [t];
    forall i, j | 0 <= i < |q| - 1 && j == i + 1 ensures q[j] in g.down[q[i]] {
      if j < |p| { assert p[j] in g.down[p[i]]; }
    }
    assert IsPath(g, q) && q[n + 1] == t;
  }

  lemma ChainEnds(g: Graph, source: Task, t: Task, n: nat)
    requires g.Valid() && Chain(g, source, t, n)
    ensures t in g.nodes && (n == 0 ==> t == source)
    ensures n > 0 ==> exists u :: u in g.up[t] && Chain(g, source, u, n - 1)
  {
    var p :| IsPath(g, p) && |p| == n + 1 && p[0] == source && p[n] == t;
    if n > 0 {
      var q := p[..n];
      assert p[n] in g.down[p[n - 1]];
      forall i, j | 0 <= i < |q| - 1 && j == i + 1 ensures q[j] in g.down[q[i]] {
        assert p[j] in g.down[p[i]];
      }
      assert IsPath(g, q) && q[n - 1] == p[n - 1];
      assert p[n - 1] in g.up[t] && Chain(g, source, p[n - 1], n - 1);
    }
  }

  lemma {:induction false} SomeChain(g: Graph, source: Task, sink: Task, t: Task) returns (n: nat)
    requires Built(g, source, sink) && t in g.nodes
    ensures Chain(g, source, t, n)
    decreases Anc(g, t)
  {
    if t == source {
      n := 0;
      assert IsPath(g, [source]);
    } else {
      assert !Root(g, t);
      var u :| u in g.up[t];
      DescEdge(g, u, t);
      assert u !in Anc(g, u) && u in Anc(g, t);
      var m := SomeChain(g, source, sink, u);
      ChainGrows(g, source, u, t, m);
      n := m + 1;
    }
  }

  /** A task belongs to level n exactly if no path from the source to it has more than n edges. */
  lemma {:induction false} LevelIff(g: Graph, source: Task, sink: Task, t: Task, n: nat)
    requires Built(g, source, sink) && t in g.nodes
    ensures t in Level(g, source, n) <==> forall m :: Chain(g, source, t, m) ==> m <= n
    decreases n
  {
    if t in Level(g, source, n) {
      forall m | Chain(g, source, t, m) ensures m <= n { InLevel(g, source, sink, t, n, m); }
    }
    if forall m :: Chain(g, source, t, m) ==> m <= n {
      ShortChains(g, source, sink, t, n);
    }
  }

  lemma {:induction false} InLevel(g: Graph, source: Task, sink: Task, t: Task, n: nat, m: nat)
    requires Built(g, source, sink) && t in Level(g, source, n) && Chain(g, source, t, m)
    ensures m <= n
    decreases n
  {
    ChainEnds(g, source, t, m);
    assert Root(g, source);
    if m > 0 {
      var u :| u in g.up[t] && Chain(g, source, u, m - 1);
      if n > 0 {
        LevelUp(g, source, sink, t, n);
        InLevel(g, source, sink, u, n - 1, m - 1);
      }
    }
  }

  /** What is above a task of level n is in the level before. */
  lemma {:induction false} LevelUp(g: Graph, source: Task, sink: Task, t: Task, n: nat)
    requires Built(g, source, sink) && n > 0 && t in Level(g, source, n)
    ensures t in g.nodes && g.up[t] <= Level(g, source, n - 1)
    decreases n
  {
    assert Root(g, source);
    if t in Level(g, source, n - 1) {
      if n > 1 { LevelUp(g, source, sink, t, n - 1); }
    }
  }

  lemma {:induction false} ShortChains(g: Graph, source: Task, sink: Task, t: Task, n: nat)
    requires Built(g, source, sink) && t in g.nodes && forall m :: Chain(g, source, t, m) ==> m <= n
    ensures t in Level(g, source, n)
    decreases n
  {
    if t == source {
      SourceInLevel(g, source, n);
    } else {
      assert !Root(g, t);
      forall u | u in g.up[t] ensures n > 0 && u in Level(g, source, n - 1) {
        forall m | Chain(g, source, u, m) ensures m + 1 <= n { ChainGrows(g, source, u, t, m); }
        var k := SomeChain(g, source, sink, u);
        ShortChains(g, source, sink, u, n - 1);
      }
    }
  }

  lemma {:induction false} SourceInLevel(g: Graph, source: Task, n: nat)
    requires g.Valid()
    ensures source in Level(g, source, n)
  {
    if n > 0 { SourceInLevel(g, source, n - 1); }
  }

  // ---------------------------------------------------------------- rounds

  /** A whole number of rounds is completed. */
  ghost predicate BetweenRounds(cfg: Config, c: CtxState)
    requires cfg.g.Valid()
  {
    exists n: nat :: c.ts.completed == Level(cfg.g, cfg.source, n)
  }

  ghost predicate RoundIs(cfg: Config, c: CtxState, batch: set<Task>, n: nat)
    requires cfg.g.Valid()
  {
    var l := Level(cfg.g, cfg.source, n);
    batch == Ready(cfg.g, l) && l <= c.ts.completed <= l + batch
  }

  /** The batch is a round: all tasks that are ready after the rounds before. */
  ghost predicate InRound(cfg: Config, c: CtxState, batch: set<Task>)
    requires cfg.g.Valid()
  {
    exists n: nat :: RoundIs(cfg, c, batch, n)
  }

  ghost predicate RoundDone(cfg: Config, e: Event, past: seq<Event>, n: nat)
    requires cfg.g.Valid()
  {
    var l := Level(cfg.g, cfg.source, n);
    e.task in Ready(cfg.g, l) && forall a :: a in l && a != cfg.source ==> DoneIn(past, e.ctx, a)
  }

  /** The task was started after all tasks of the rounds before its own were done. */
  ghost predicate AfterRounds(cfg: Config, e: Event, past: seq<Event>)
    requires cfg.g.Valid()
  {
    exists n: nat :: RoundDone(cfg, e, past, n)
  }

  ghost predicate QueueRounds(cfg: Config, s: State)
    requires cfg.g.Valid()
  {
    forall c :: c in s.queue && c in s.ctxs && s.ctxs[c].alive ==> BetweenRounds(cfg, s.ctxs[c])
  }

  ghost predicate WorkRounds(cfg: Config, s: State)
    requires cfg.g.Valid()
  {
    forall w :: 0 <= w < |s.workers| && s.workers[w].Batch? ==>
      s.workers[w].ctx in s.ctxs && InRound(cfg, s.ctxs[s.workers[w].ctx], s.workers[w].batch)
  }

  ghost predicate TraceRounds(cfg: Config, trace: seq<Event>)
    requires cfg.g.Valid()
  {
    forall i :: 0 <= i < |trace| && trace[i].Start? ==> AfterRounds(cfg, trace[i], trace[..i])
  }

  ghost predicate Rounds(cfg: Config, s: State)
    requires cfg.g.Valid()
  {
    QueueRounds(cfg, s) && WorkRounds(cfg, s) && TraceRounds(cfg, s.trace)
  }

  lemma TraceRoundsSnoc(cfg: Config, trace: seq<Event>, e: Event)
    requires cfg.g.Valid() && TraceRounds(cfg, trace) && (e.Start? ==> AfterRounds(cfg, e, trace))
    ensures TraceRounds(cfg, trace + [e])
  {
    hide AfterRounds, Graph.Valid;
    var l := trace + [e];
    forall i | 0 <= i < |l| && l[i].Start? ensures AfterRounds(cfg, l[i], l[..i]) {
      if i < |trace| {
        assert l[..i] == trace[..i];
      } else {
        assert l[..i] == trace;
      }
    }
  }

  /** Worker w went on with its batch, of which it completed only members. */
  lemma BatchRounds(cfg: Config, inputs: seq<Ctx>, s: State, s': State, w: nat)
    requires cfg.g.Valid() && Owned(inputs, s) && QueueRounds(cfg, s) && WorkRounds(cfg, s) && BatchMove(s, s', w)
    requires s'.workers[w].batch == s.workers[w].batch
    requires InRound(cfg, s'.ctxs[s.workers[w].ctx], s.workers[w].batch)
    ensures QueueRounds(cfg, s') && WorkRounds(cfg, s')
  {
    hide Graph.Valid, InRound, BetweenRounds;
    assert s.workers[w].ctx !in s.queue;
  }

  lemma SameRound(cfg: Config, c: CtxState, c': CtxState, batch: set<Task>, t: Task)
    requires cfg.g.Valid() && InRound(cfg, c, batch) && t in batch
    requires c'.ts.completed == c.ts.completed || c'.ts.completed == c.ts.completed + {t}
    ensures InRound(cfg, c', batch)
  {
    var n: nat :| RoundIs(cfg, c, batch, n);
    assert RoundIs(cfg, c', batch, n);
  }

  lemma BeginRounds(cfg: Config, inputs: seq<Ctx>, s: State, w: nat, t: Task)
    requires Inv(cfg, inputs, s) && Unmasked(s) && Enabled(cfg, s, Begin(w, t)) && cfg.g.Valid() && Rounds(cfg, s)
    ensures Rounds(cfg, Next(cfg, s, Begin(w, t)))
  {
    InBatch(cfg, inputs, s, Begin(w, t));
    BeginIs(cfg, s, w, t);
    var k := s.workers[w];
    TodoInRound(cfg, inputs, s, w, t);
    TraceRoundsSnoc(cfg, s.trace, Start(k.ctx, t));
    assert Owned(inputs, s);
    hide Inv, Next, Graph.Valid, AfterRounds, TraceRounds, BatchMove, AtBatch, QueueRounds;
    RoundKept(cfg, s.ctxs[k.ctx], s.ctxs[k.ctx].(started := s.ctxs[k.ctx].started + {t}), k.batch);
    BatchRounds(cfg, inputs, s, Next(cfg, s, Begin(w, t)), w);
  }

  lemma RoundKept(cfg: Config, c: CtxState, c': CtxState, batch: set<Task>)
    requires cfg.g.Valid() && InRound(cfg, c, batch) && c'.ts == c.ts
    ensures InRound(cfg, c', batch)
  {
    var n: nat :| RoundIs(cfg, c, batch, n);
    assert RoundIs(cfg, c', batch, n);
  }

  lemma TodoInRound(cfg: Config, inputs: seq<Ctx>, s: State, w: nat, t: Task)
    requires Inv(cfg, inputs, s) && Unmasked(s) && Enabled(cfg, s, Begin(w, t)) && cfg.g.Valid() && WorkRounds(cfg, s)
    ensures AfterRounds(cfg, Start(s.workers[w].ctx, t), s.trace)
  {
    BatchAt(cfg, inputs, s, w);
    var k := s.workers[w];
    assert TasksOk(cfg, s.ctxs[k.ctx]) && t in k.batch && Recorded(s);
    var n: nat :| RoundIs(cfg, s.ctxs[k.ctx], k.batch, n);
    hide Inv, AtBatch, Graph.Valid, TasksOk, DoneIn, MaskedIn, WorkRounds, GoodConfig, BatchOk;
    forall a | a in Level(cfg.g, cfg.source, n) && a != cfg.source ensures DoneIn(s.trace, k.ctx, a) {
      CompletedRecorded(cfg, s, k.ctx, a);
      assert a !in s.ctxs[k.ctx].masked;
    }
    assert RoundDone(cfg, Start(k.ctx, t), s.trace, n);
  }

  lemma FinishRounds(cfg: Config, inputs: seq<Ctx>, s: State, w: nat, t: Task, chosen: set<Task>)
    requires Inv(cfg, inputs, s) && Enabled(cfg, s, Finish(w, t, chosen)) && cfg.g.Valid() && Rounds(cfg, s) && cfg.routers == {}
    ensures Rounds(cfg, Next(cfg, s, Finish(w, t, chosen)))
  {
    InBatch(cfg, inputs, s, Finish(w, t, chosen));
    FinishIs(cfg, s, w, t, chosen);
    var k := s.workers[w];
    TraceRoundsSnoc(cfg, s.trace, Done(k.ctx, t, MaskBy(cfg, t, chosen)));
    CompletesItself(cfg, s.ctxs[k.ctx], t, chosen);
    InflightInBatch(cfg, s.ctxs[k.ctx], k, t);
    assert Owned(inputs, s);
    hide Inv, Next, Graph.Valid, TraceRounds, BatchMove, AtBatch, QueueRounds, AfterTask, MaskBy, InRound;
    SameRound(cfg, s.ctxs[k.ctx], AfterTask(cfg, s.ctxs[k.ctx], t, chosen), k.batch, t);
    BatchRounds(cfg, inputs, s, Next(cfg, s, Finish(w, t, chosen)), w);
  }

  lemma CompletesItself(cfg: Config, c: CtxState, t: Task, chosen: set<Task>)
    requires cfg.g.Valid() && cfg.routers == {}
    ensures var c' := AfterTask(cfg, c, t, chosen);
      c'.ts.completed == c.ts.completed || c'.ts.completed == c.ts.completed + {t}
  {
    assert {} + {t} == {t};
  }

  lemma InflightInBatch(cfg: Config, c: CtxState, k: Worker, t: Task)
    requires GoodConfig(cfg) && k.Batch? && BatchOk(cfg, c, k) && t in k.inflight
    ensures t in k.batch
  {
    hide GoodConfig, TasksOk, SinkOk;
  }

  lemma SinkRounds(cfg: Config, inputs: seq<Ctx>, s: State, step: Step)
    requires Inv(cfg, inputs, s) && Enabled(cfg, s, step) && cfg.g.Valid() && Rounds(cfg, s) && (step.SinkMark? || step.SinkCount?)
    ensures Rounds(cfg, Next(cfg, s, step))
  {
    InBatch(cfg, inputs, s, step);
    assert Owned(inputs, s);
    hide Inv, Graph.Valid, TraceRounds, BatchMove, AtBatch, QueueRounds, InRound;
    var x := s.workers[step.w].ctx;
    var s' := Next(cfg, s, step);
    assert s'.ctxs[x].ts == s.ctxs[x].ts && s'.trace == s.trace && s'.workers[step.w].batch == s.workers[step.w].batch;
    hide Next, Enabled;
    RoundKept(cfg, s.ctxs[x], s'.ctxs[x], s.workers[step.w].batch);
    BatchRounds(cfg, inputs, s, s', step.w);
  }

  lemma TakeRounds(cfg: Config, inputs: seq<Ctx>, s: State, w: nat, i: nat)
    requires Inv(cfg, inputs, s) && Enabled(cfg, s, Take(w, i)) && cfg.g.Valid() && Rounds(cfg, s)
    ensures Rounds(cfg, Next(cfg, s, Take(w, i)))
  {
    var s' := TakeShape(cfg, inputs, s, w, i);
    assert s.queue[i] in s.queue && InLine(cfg, s, s.queue[i]);
    hide Inv, Next, Enabled, Graph.Valid, TraceRounds;
    TakenRounds(cfg, s, s', w, i);
    hide TakeMove, QueueRounds, WorkRounds;
    TakenTrace(cfg, s, s', w, i);
  }

  lemma TakenTrace(cfg: Config, s: State, s': State, w: nat, i: nat)
    requires GoodConfig(cfg) && TakeMove(cfg, s, s', w, i)
    ensures s'.trace == s.trace
  {
    hide GoodConfig, BatchOk;
  }

  lemma TakenRounds(cfg: Config, s: State, s': State, w: nat, i: nat)
    requires GoodConfig(cfg) && cfg.g.Valid() && TakeMove(cfg, s, s', w, i) && InLine(cfg, s, s.queue[i])
    requires QueueRounds(cfg, s) && WorkRounds(cfg, s)
    ensures QueueRounds(cfg, s') && WorkRounds(cfg, s')
  {
    var x := s.queue[i];
    if s.ctxs[x].alive {
      assert x in s.queue && Exact(cfg.g, s.ctxs[x].ts);
      NextRound(cfg, s.ctxs[x]);
    }
    hide GoodConfig, BatchOk, QueuedOk, Graph.Valid, InRound, BetweenRounds, Exact;
    assert forall c :: c in s'.queue ==> c in s.queue;
  }

  lemma NextRound(cfg: Config, c: CtxState)
    requires cfg.g.Valid() && Exact(cfg.g, c.ts) && BetweenRounds(cfg, c)
    ensures InRound(cfg, c, c.ts.available)
  {
    var n: nat :| c.ts.completed == Level(cfg.g, cfg.source, n);
    assert RoundIs(cfg, c, c.ts.available, n);
  }

  lemma EndRounds(cfg: Config, inputs: seq<Ctx>, s: State, w: nat)
    requires Inv(cfg, inputs, s) && Enabled(cfg, s, EndBatch(w)) && cfg.g.Valid() && Rounds(cfg, s)
    ensures Rounds(cfg, Next(cfg, s, EndBatch(w)))
  {
    BatchAt(cfg, inputs, s, w);
    var s', x := EndBatchShape(cfg, inputs, s, w);
    RoundEnds(cfg, s, w);
    hide Inv, Next, AtBatch, Enabled, Graph.Valid, TraceRounds, InRound, BetweenRounds;
    EndedRounds(cfg, s, s', w, x);
  }

  lemma EndedRounds(cfg: Config, s: State, s': State, w: nat, x: Ctx)
    requires GoodConfig(cfg) && cfg.g.Valid() && EndMove(cfg, s, s', w, x) && Rounds(cfg, s)
    requires cfg.sink !in s.workers[w].batch ==> BetweenRounds(cfg, s.ctxs[x])
    ensures Rounds(cfg, s')
  {
    OutIsDead(cfg, s.ctxs[x]);
    hide GoodConfig, OutputOk, QueuedOk, Graph.Valid, InRound, BetweenRounds, TraceRounds;
  }

  lemma OutIsDead(cfg: Config, c: CtxState)
    requires GoodConfig(cfg)
    ensures OutputOk(cfg, c) ==> !c.alive
  {
    hide GoodConfig, TasksOk;
  }

  lemma RoundEnds(cfg: Config, s: State, w: nat)
    requires AtBatch(cfg, s, w) && Enabled(cfg, s, EndBatch(w)) && cfg.g.Valid() && WorkRounds(cfg, s)
    ensures cfg.sink !in s.workers[w].batch ==> BetweenRounds(cfg, s.ctxs[s.workers[w].ctx])
  {
    var k := s.workers[w];
    var c := s.ctxs[k.ctx];
    if cfg.sink !in k.batch {
      BatchIsDone(cfg, c, k);
      var n: nat :| RoundIs(cfg, c, k.batch, n);
      hide AtBatch, BatchOk, GoodConfig, Graph.Valid;
      assert c.ts.completed == Level(cfg.g, cfg.source, n + 1);
    }
  }

  lemma IdleRounds(cfg: Config, s: State, step: Step)
    requires cfg.g.Valid() && Enabled(cfg, s, step) && Rounds(cfg, s) && (step.Check? || step.Timeout? || step.DropCount?)
    ensures Rounds(cfg, Next(cfg, s, step))
  {
    hide Graph.Valid, InRound, BetweenRounds, TraceRounds;
  }

  lemma StepRounds(cfg: Config, inputs: seq<Ctx>, s: State, step: Step)
    requires Inv(cfg, inputs, s) && Unmasked(s) && Enabled(cfg, s, step) && cfg.g.Valid() && Rounds(cfg, s) && cfg.routers == {}
    ensures Rounds(cfg, Next(cfg, s, step))
  {
    hide Inv, Next, Graph.Valid, Rounds, Unmasked;
    match step
    case Take(w, i) => TakeRounds(cfg, inputs, s, w, i);
    case Begin(w, t) => BeginRounds(cfg, inputs, s, w, t);
    case Finish(w, t, chosen) => FinishRounds(cfg, inputs, s, w, t, chosen);
    case EndBatch(w) => EndRounds(cfg, inputs, s, w);
    case SinkMark(_) => SinkRounds(cfg, inputs, s, step);
    case SinkCount(_) => SinkRounds(cfg, inputs, s, step);
    case _ => IdleRounds(cfg, s, step);
  }

  lemma {:induction false} RunRounds(cfg: Config, inputs: seq<Ctx>, s: State, steps: seq<Step>)
    requires Inv(cfg, inputs, s) && Unmasked(s) && cfg.g.Valid() && IsRun(cfg, s, steps) && Rounds(cfg, s) && cfg.routers == {}
    ensures Rounds(cfg, After(cfg, s, steps))
    decreases |steps|
  {
    hide Inv, Next, Graph.Valid, Rounds, Unmasked, Enabled;
    if steps != [] {
      StepInv(cfg, inputs, s, steps[0]);
      StepRounds(cfg, inputs, s, steps[0]);
      NothingMasked(cfg, steps[0]);
      StepUnmasked(cfg, s, steps[0]);
      RunRounds(cfg, inputs, Next(cfg, s, steps[0]), steps[1..]);
    }
  }

  lemma NothingMasked(cfg: Config, step: Step)
    requires cfg.g.Valid() && cfg.routers == {}
    ensures step.Finish? ==> MaskBy(cfg, step.task, step.chosen) == {}
  {
  }

  lemma InitRounds(cfg: Config, inputs: seq<Ctx>, n: nat)
    requires GoodConfig(cfg)
    ensures cfg.g.Valid() && Rounds(cfg, Init(cfg, inputs, n))
  {
    assert cfg.g.Valid();
    assert {} + {cfg.source} == Level(cfg.g, cfg.source, 0);
    hide Graph.Valid, Level;
  }

  /** Some path from the source to b is longer than any to a. */
  ghost predicate Shallower(g: Graph, source: Task, a: Task, b: Task)
    requires g.Valid()
  {
    exists m :: Chain(g, source, b, m) && forall k :: Chain(g, source, a, k) ==> k < m
  }

  /** Without routers a context goes through the graph level by level: no task is started before every task is done
      whose longest path from the source is shorter. */
  lemma LevelByLevel(cfg: Config, inputs: seq<Ctx>, n: nat, steps: seq<Step>, s: State, i: nat, a: Task)
    requires Reached(cfg, inputs, n, steps, s) && cfg.routers == {} && cfg.g.Valid()
    requires i < |s.trace| && s.trace[i].Start? && a in cfg.g.nodes && a != cfg.source
    requires Shallower(cfg.g, cfg.source, a, s.trace[i].task)
    ensures DoneIn(s.trace[..i], s.trace[i].ctx, a)
  {
    var start := Init(cfg, inputs, n);
    InitInv(cfg, inputs, n);
    InitRounds(cfg, inputs, n);
    assert Unmasked(start);
    RunRounds(cfg, inputs, start, steps);
    var e := s.trace[i];
    assert Rounds(cfg, s) && AfterRounds(cfg, e, s.trace[..i]);
    var l: nat :| RoundDone(cfg, e, s.trace[..i], l);
    hide Reached, Inv, Rounds, DoneIn;
    var m :| Chain(cfg.g, cfg.source, e.task, m) && forall k :: Chain(cfg.g, cfg.source, a, k) ==> k < m;
    LevelIff(cfg.g, cfg.source, cfg.sink, e.task, l + 1);
    LevelIff(cfg.g, cfg.source, cfg.sink, a, l);
  }
}
