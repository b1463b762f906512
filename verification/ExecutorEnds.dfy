/** Which runs of the executor loop can come to an end (shutils/dag/executor.py). */
module ExecutorEnds {
  import opened Graphs
  import opened Executors
  import opened ExecutorRuns

  ghost predicate AllStopped(s: State) {
    forall w :: 0 <= w < |s.workers| ==> s.workers[w].Stopped?
  }

  /** Some worker waits for ever: nothing is queued, and nobody else is left who could queue anything. */
  ghost predicate Stuck(cfg: Config, s: State) {
    && !cfg.polls && s.queue == [] && !AllStopped(s)
    && forall w :: 0 <= w < |s.workers| ==> s.workers[w].Waiting? || s.workers[w].Stopped?
  }

  /** A batch can always go on, its routers picking all their children. */
  lemma BatchGoesOn(cfg: Config, inputs: seq<Ctx>, s: State, w: nat) returns (step: Step)
    requires Inv(cfg, inputs, s) && w < |s.workers| && s.workers[w].Batch?
    ensures Enabled(cfg, s, step) && Works(s, step) && step.w == w && !step.Take? && !Next(cfg, s, step).workers[w].Waiting?
    ensures step.Finish? ==> MaskBy(cfg, step.task, step.chosen) == {}
  {
    BatchAt(cfg, inputs, s, w);
    hide Inv, Next, Enabled;
    InflightKnown(cfg, s.ctxs[s.workers[w].ctx], s.workers[w]);
    hide BatchOk;
    step := NextInBatch(cfg, s, w);
    hide AtBatch, Works, MaskBy;
    BatchWaitsNot(cfg, s, step);
  }

  lemma PicksAll(cfg: Config, t: Task) returns (chosen: set<Task>)
    requires GoodConfig(cfg) && t in cfg.g.nodes
    ensures MayPick(cfg, t, chosen) && MaskBy(cfg, t, chosen) == {}
  {
    chosen := {};
    if t in cfg.routers {
      assert !Leaf(cfg.g, t);
      chosen := cfg.g.down[t];
      MaskFacts(cfg, t, chosen);
    }
  }

  lemma NextInBatch(cfg: Config, s: State, w: nat) returns (step: Step)
    requires GoodConfig(cfg) && w < |s.workers| && s.workers[w].Batch? && s.workers[w].ctx in s.ctxs
    requires s.workers[w].inflight <= cfg.g.nodes
    ensures cfg.g.Valid() && Enabled(cfg, s, step) && Works(s, step) && step.w == w && !step.Take?
    ensures step.Finish? ==> MaskBy(cfg, step.task, step.chosen) == {}
  {
    assert cfg.g.Valid();
    hide GoodConfig, MaskBy, MayPick, Graph.Valid;
    var k := s.workers[w];
    if k.inflight != {} {
      var t :| t in k.inflight;
      if t != cfg.sink || k.stage.Counted? {
        var chosen := PicksAll(cfg, t);
        step := Finish(w, t, chosen);
      } else if k.stage.Fresh? {
        step := SinkMark(w);
      } else {
        step := SinkCount(w);
      }
    } else if k.todo != {} {
      var t :| t in k.todo;
      step := Begin(w, t);
    } else {
      step := EndBatch(w);
    }
  }

  /** A step of a batch does not begin to wait. */
  lemma BatchWaitsNot(cfg: Config, s: State, step: Step)
    requires cfg.g.Valid() && Enabled(cfg, s, step) && s.workers[step.w].Batch?
    ensures |Next(cfg, s, step).workers| == |s.workers| && !Next(cfg, s, step).workers[step.w].Waiting?
  {
    hide MaskBy, AfterTask, MayPick;
  }

  lemma InflightKnown(cfg: Config, c: CtxState, k: Worker)
    requires GoodConfig(cfg) && k.Batch? && BatchOk(cfg, c, k)
    ensures k.inflight <= cfg.g.nodes && cfg.g.Valid()
  {
    assert cfg.g.Valid();
    hide GoodConfig, TasksOk, SinkOk;
    assert forall t :: t in k.inflight ==> t in k.batch;
  }

  /** A live context that no worker holds is queued. */
  lemma LiveIsQueued(cfg: Config, inputs: seq<Ctx>, s: State)
    requires Inv(cfg, inputs, s) && s.counter > 0
    requires forall w :: 0 <= w < |s.workers| ==> !s.workers[w].Batch?
    ensures s.queue != [] && s.queue[0] in s.ctxs
  {
    hide GoodConfig, TasksOk, QueuedOk, TraceOk;
    assert Owing(s) == {};
    var c :| c in Live(s);
    assert forall v :: 0 <= v < |s.workers| ==> !Holds(s.workers[v], c);
    assert c in s.outputs ==> OutputOk(cfg, s.ctxs[c]);
    assert s.queue[0] in Elems(s.queue);
  }

  lemma OneStep(cfg: Config, s: State, a: Step)
    requires cfg.g.Valid() && Enabled(cfg, s, a)
    ensures IsRun(cfg, s, [a]) && After(cfg, s, [a]) == Next(cfg, s, a)
  {
    hide Enabled, Next;
    assert [a][1..] == [];
  }

  lemma TwoSteps(cfg: Config, s: State, a: Step, b: Step)
    requires cfg.g.Valid() && Enabled(cfg, s, a) && Enabled(cfg, Next(cfg, s, a), b)
    ensures IsRun(cfg, s, [a, b]) && After(cfg, s, [a, b]) == Next(cfg, Next(cfg, s, a), b)
  {
    hide Enabled, Next;
    OneStep(cfg, Next(cfg, s, a), b);
    assert [a, b][1..] == [b];
  }

  /** As long as the executor is not stuck, at most one poll separates it from its next step of work, and a get can be
      handed what is first in the queue. In the program another waiter's timed-out get can swallow the wakeup, and then
      a worker must time out once before the item is seen. */
  lemma SomeoneWorks(cfg: Config, inputs: seq<Ctx>, s: State) returns (steps: seq<Step>)
    requires Inv(cfg, inputs, s) && !AllStopped(s) && !Stuck(cfg, s)
    ensures 1 <= |steps| <= 2 && IsRun(cfg, s, steps) && FirstOnly(steps)
    ensures Weight(cfg, After(cfg, s, steps)) < Weight(cfg, s)
  {
    if v :| 0 <= v < |s.workers| && s.workers[v].Batch? {
      var a := BatchGoesOn(cfg, inputs, s, v);
      steps := WorkNow(cfg, inputs, s, a);
    } else {
      steps := IdleWorks(cfg, inputs, s);
    }
  }

  lemma IdleWorks(cfg: Config, inputs: seq<Ctx>, s: State) returns (steps: seq<Step>)
    requires Inv(cfg, inputs, s) && !AllStopped(s) && !Stuck(cfg, s)
    requires forall w :: 0 <= w < |s.workers| ==> !s.workers[w].Batch?
    ensures 1 <= |steps| <= 2 && IsRun(cfg, s, steps) && FirstOnly(steps)
    ensures Weight(cfg, After(cfg, s, steps)) < Weight(cfg, s)
  {
    NobodyDrops(cfg, inputs, s);
    if s.counter > 0 {
      LiveIsQueued(cfg, inputs, s);
    }
    QueueKnown(cfg, inputs, s);
    hide Inv, Weight;
    if v :| 0 <= v < |s.workers| && s.workers[v].Waiting? && s.queue != [] {
      steps := WorkNow(cfg, inputs, s, Take(v, 0));
    } else if v :| 0 <= v < |s.workers| && s.workers[v].Checking? {
      if s.counter > 0 {
        steps := PollThenWork(cfg, inputs, s, Check(v), Take(v, 0));
      } else {
        steps := WorkNow(cfg, inputs, s, Check(v));
      }
    } else {
      var v :| 0 <= v < |s.workers| && s.workers[v].Waiting?;
      steps := PollThenWork(cfg, inputs, s, Timeout(v), Check(v));
    }
  }

  lemma QueueKnown(cfg: Config, inputs: seq<Ctx>, s: State)
    requires Inv(cfg, inputs, s)
    ensures forall c :: c in s.queue ==> c in s.ctxs
  {
    hide GoodConfig, PlacesOk, Counts, TraceOk;
    forall c | c in s.queue ensures c in s.ctxs { assert c in Elems(s.queue); }
  }

  /** Nothing but an expired wait can happen in exactly the states in which all have left or the rest waits. */
  lemma StuckIff(cfg: Config, inputs: seq<Ctx>, s: State)
    requires Inv(cfg, inputs, s)
    ensures (forall step :: !Enabled(cfg, s, step)) <==> AllStopped(s) || Stuck(cfg, s)
  {
    hide Inv, Enabled, AllStopped, Stuck;
    if AllStopped(s) || Stuck(cfg, s) {
      NothingEnabled(cfg, s);
    } else {
      var steps := SomeoneWorks(cfg, inputs, s);
      assert Enabled(cfg, s, steps[0]);
    }
  }

  lemma NothingEnabled(cfg: Config, s: State)
    requires AllStopped(s) || Stuck(cfg, s)
    ensures forall step :: !Enabled(cfg, s, step)
  {
  }

  lemma WorkNow(cfg: Config, inputs: seq<Ctx>, s: State, a: Step) returns (steps: seq<Step>)
    requires Inv(cfg, inputs, s) && Enabled(cfg, s, a) && Works(s, a) && (a.Take? ==> a.i == 0)
    ensures steps == [a] && IsRun(cfg, s, steps) && FirstOnly(steps) && After(cfg, s, steps) == Next(cfg, s, a)
    ensures Weight(cfg, After(cfg, s, steps)) < Weight(cfg, s)
  {
    hide Enabled, Next, Weight, Works, Owned, PlacesOk, Counts, TraceOk;
    steps := [a];
    OneStep(cfg, s, a);
    StepWeight(cfg, inputs, s, a);
  }

  lemma PollThenWork(cfg: Config, inputs: seq<Ctx>, s: State, a: Step, b: Step) returns (steps: seq<Step>)
    requires Inv(cfg, inputs, s) && Enabled(cfg, s, a) && !a.Take? && (b.Take? ==> b.i == 0)
    requires Enabled(cfg, Next(cfg, s, a), b) && Works(Next(cfg, s, a), b)
    ensures steps == [a, b] && IsRun(cfg, s, steps) && FirstOnly(steps)
    ensures After(cfg, s, steps) == Next(cfg, Next(cfg, s, a), b)
    ensures Weight(cfg, After(cfg, s, steps)) < Weight(cfg, s)
  {
    hide Enabled, Next, Weight, Works, Owned, PlacesOk, Counts, TraceOk;
    steps := [a, b];
    StepInv(cfg, inputs, s, a);
    StepWeight(cfg, inputs, s, a);
    StepWeight(cfg, inputs, Next(cfg, s, a), b);
    TwoSteps(cfg, s, a, b);
  }

  lemma {:induction false} RunsConcat(cfg: Config, s: State, a: seq<Step>, b: seq<Step>)
    requires cfg.g.Valid() && IsRun(cfg, s, a) && IsRun(cfg, After(cfg, s, a), b)
    ensures IsRun(cfg, s, a + b) && After(cfg, s, a + b) == After(cfg, After(cfg, s, a), b)
    decreases |a|
  {
    hide Enabled, Next;
    if a == [] {
      assert a + b == b;
    } else {
      assert (a + b)[0] == a[0] && (a + b)[1..] == a[1..] + b;
      RunsConcat(cfg, Next(cfg, s, a[0]), a[1..], b);
    }
  }

  lemma FirstOnlyConcat(a: seq<Step>, b: seq<Step>)
    requires FirstOnly(a) && FirstOnly(b)
    ensures FirstOnly(a + b)
  {
  }

  /** One worker, or no inputs: nobody waits unless a context is live. */
  ghost predicate Hopeful(inputs: seq<Ctx>, s: State) {
    && (|s.workers| <= 1 || inputs == [])
    && forall w :: 0 <= w < |s.workers| && s.workers[w].Waiting? ==> s.counter > 0
  }

  lemma HopefulNotStuck(cfg: Config, inputs: seq<Ctx>, s: State)
    requires Inv(cfg, inputs, s) && Hopeful(inputs, s)
    ensures !Stuck(cfg, s)
  {
    if Stuck(cfg, s) {
      LiveIsQueued(cfg, inputs, s);
    }
  }

  lemma StepHopeful(cfg: Config, inputs: seq<Ctx>, s: State, step: Step)
    requires Inv(cfg, inputs, s) && Enabled(cfg, s, step) && Hopeful(inputs, s)
    ensures Hopeful(inputs, Next(cfg, s, step))
  {
    NobodyDrops(cfg, inputs, s);
    hide Inv, Next, Enabled, Graph.Valid;
    OthersStand(cfg, s, step);
    OnlyCheckWaits(cfg, s, step);
    if inputs == [] {
      NoBatchWithoutInputs(cfg, inputs, s);
      assert step.w < |s.workers|;
    }
    hide *;
    HopefulStays(inputs, s, Next(cfg, s, step), step.w);
  }

  lemma HopefulStays(inputs: seq<Ctx>, s: State, s': State, w: nat)
    requires Hopeful(inputs, s) && w < |s.workers| == |s'.workers| && s'.workers == s.workers[w := s'.workers[w]]
    requires s'.workers[w].Waiting? ==> s.counter > 0 && s'.counter == s.counter
    requires inputs == [] ==> s'.counter == s.counter
    ensures Hopeful(inputs, s')
  {
  }

  /** A worker begins to wait only after it saw a positive counter; only batches count down. */
  lemma OnlyCheckWaits(cfg: Config, s: State, step: Step)
    requires cfg.g.Valid() && Enabled(cfg, s, step)
    ensures Next(cfg, s, step).workers[step.w].Waiting? ==> s.counter > 0 && Next(cfg, s, step).counter == s.counter
    ensures Next(cfg, s, step).counter == s.counter || s.workers[step.w].Batch? || s.workers[step.w].Dropping?
  {
    hide MaskBy, AfterTask;
  }

  lemma NoBatchWithoutInputs(cfg: Config, inputs: seq<Ctx>, s: State)
    requires Inv(cfg, inputs, s) && inputs == []
    ensures s.queue == [] && forall w :: 0 <= w < |s.workers| ==> !s.workers[w].Batch? && !s.workers[w].Dropping?
  {
    hide GoodConfig, Counts, TraceOk, QueuedOk, OutputOk, BatchOk;
    assert Elems(inputs) == {};
    if s.queue != [] {
      HeadElem(s.queue);
    }
  }

  lemma HeadElem<T>(l: seq<T>)
    requires l != []
    ensures Elems(l) != {}
  {
    assert l[0] in Elems(l);
  }

  lemma {:induction false} RunHopeful(cfg: Config, inputs: seq<Ctx>, s: State, steps: seq<Step>)
    requires Inv(cfg, inputs, s) && IsRun(cfg, s, steps) && Hopeful(inputs, s)
    ensures Hopeful(inputs, After(cfg, s, steps))
    decreases |steps|
  {
    if steps != [] {
      StepInv(cfg, inputs, s, steps[0]);
      StepHopeful(cfg, inputs, s, steps[0]);
      hide Inv, Hopeful, Next, Enabled;
      RunHopeful(cfg, inputs, Next(cfg, s, steps[0]), steps[1..]);
    }
  }

  /** With a timeout, with one worker or without inputs the workers can always come to their end, served in the order
      of the queue. */
  lemma {:induction false} CanFinish(cfg: Config, inputs: seq<Ctx>, s: State) returns (steps: seq<Step>)
    requires Inv(cfg, inputs, s) && (cfg.polls || Hopeful(inputs, s))
    ensures IsRun(cfg, s, steps) && FirstOnly(steps) && AllStopped(After(cfg, s, steps))
    decreases Weight(cfg, s)
  {
    assert cfg.g.Valid();
    steps := [];
    if !AllStopped(s) {
      if Hopeful(inputs, s) {
        HopefulNotStuck(cfg, inputs, s);
      }
      hide Inv, AllStopped, FirstOnly, Enabled, Next, Weight, Hopeful;
      var a := SomeoneWorks(cfg, inputs, s);
      RunInv(cfg, inputs, s, a);
      if Hopeful(inputs, s) {
        RunHopeful(cfg, inputs, s, a);
      }
      var b := CanFinish(cfg, inputs, After(cfg, s, a));
      RunsConcat(cfg, s, a, b);
      FirstOnlyConcat(a, b);
      steps := a + b;
    }
  }

  // ---- without timeouts

  /** The steps of a run in which nobody's wait expires. */
  predicate NoTimeouts(steps: seq<Step>) {
    forall a :: a in steps ==> !a.Timeout?
  }

  /** All other workers are idle, and worker w does not wait. */
  ghost predicate Solo(s: State, w: nat) {
    && w < |s.workers| && !s.workers[w].Waiting?
    && forall v :: 0 <= v < |s.workers| && v != w ==> !s.workers[v].Batch?
  }

  /** A run of worker w alone, in which nothing is masked. */
  ghost predicate SoloRun(cfg: Config, s: State, steps: seq<Step>, w: nat) {
    && cfg.g.Valid() && IsRun(cfg, s, steps) && FirstOnly(steps) && NoTimeouts(steps)
    && var e := After(cfg, s, steps);
       |e.workers| == |s.workers| && Solo(e, w) && e.workers == s.workers[w := e.workers[w]] && Unmasked(e)
  }

  lemma OthersStand(cfg: Config, s: State, step: Step)
    requires cfg.g.Valid() && Enabled(cfg, s, step)
    ensures var s' := Next(cfg, s, step); |s'.workers| == |s.workers| && s'.workers == s.workers[step.w := s'.workers[step.w]]
  {
    hide MaskBy, AfterTask;
  }

  lemma SoloStep(cfg: Config, inputs: seq<Ctx>, s: State, w: nat) returns (steps: seq<Step>)
    requires Inv(cfg, inputs, s) && Unmasked(s) && Solo(s, w) && !s.workers[w].Stopped?
    ensures SoloRun(cfg, s, steps, w) && Weight(cfg, After(cfg, s, steps)) < Weight(cfg, s)
  {
    NobodyDrops(cfg, inputs, s);
    if s.workers[w].Batch? {
      var a := BatchGoesOn(cfg, inputs, s, w);
      hide Inv, Next, Enabled;
      SoloMoves(cfg, s, w, a);
      steps := SoloNow(cfg, inputs, s, w, a);
    } else if s.counter > 0 {
      LiveIsQueued(cfg, inputs, s);
      steps := SoloTake(cfg, inputs, s, w);
    } else {
      assert Enabled(cfg, s, Check(w)) && Works(s, Check(w)) && !Next(cfg, s, Check(w)).workers[w].Waiting?;
      hide Inv, Next, Enabled;
      SoloMoves(cfg, s, w, Check(w));
      steps := SoloNow(cfg, inputs, s, w, Check(w));
    }
  }

  /** Worker w moved on its own. */
  ghost predicate SoloMove(s: State, e: State, w: nat) {
    && Solo(s, w) && |e.workers| == |s.workers| && e.workers == s.workers[w := e.workers[w]] && !e.workers[w].Waiting?
    && Unmasked(e)
  }

  lemma SoloMoveRun(cfg: Config, s: State, steps: seq<Step>, w: nat)
    requires cfg.g.Valid() && IsRun(cfg, s, steps) && FirstOnly(steps) && NoTimeouts(steps)
    requires SoloMove(s, After(cfg, s, steps), w)
    ensures SoloRun(cfg, s, steps, w)
  {
    hide IsRun, After, FirstOnly, NoTimeouts, Unmasked;
  }

  lemma SoloNow(cfg: Config, inputs: seq<Ctx>, s: State, w: nat, a: Step) returns (steps: seq<Step>)
    requires cfg.g.Valid() && Inv(cfg, inputs, s) && Enabled(cfg, s, a) && Works(s, a) && !a.Take? && !a.Timeout?
    requires SoloMove(s, Next(cfg, s, a), w)
    ensures SoloRun(cfg, s, steps, w) && Weight(cfg, After(cfg, s, steps)) < Weight(cfg, s)
  {
    hide *;
    steps := WorkNow(cfg, inputs, s, a);
    OneNoTimeout(a);
    SoloMoveRun(cfg, s, steps, w);
    SoloRunIsRun(cfg, s, steps, w);
  }

  lemma OneNoTimeout(a: Step)
    requires !a.Timeout?
    ensures NoTimeouts([a])
  {
  }

  lemma SoloRunIsRun(cfg: Config, s: State, steps: seq<Step>, w: nat)
    requires SoloRun(cfg, s, steps, w)
    ensures cfg.g.Valid() && IsRun(cfg, s, steps)
  {
  }

  lemma SoloMoves(cfg: Config, s: State, w: nat, a: Step)
    requires cfg.g.Valid() && Unmasked(s) && Solo(s, w) && Enabled(cfg, s, a) && a.w == w
    requires !Next(cfg, s, a).workers[w].Waiting?
    requires a.Finish? ==> MaskBy(cfg, a.task, a.chosen) == {}
    ensures SoloMove(s, Next(cfg, s, a), w)
  {
    hide Graph.Valid, Next, Enabled, Unmasked, MaskBy;
    OthersStand(cfg, s, a);
    StepUnmasked(cfg, s, a);
  }

  lemma SoloTake(cfg: Config, inputs: seq<Ctx>, s: State, w: nat) returns (steps: seq<Step>)
    requires cfg.g.Valid() && Inv(cfg, inputs, s) && Unmasked(s) && Solo(s, w) && s.workers[w].Checking? && s.counter > 0
    requires s.queue != [] && s.queue[0] in s.ctxs
    ensures SoloRun(cfg, s, steps, w) && Weight(cfg, After(cfg, s, steps)) < Weight(cfg, s)
  {
    CheckThenTake(cfg, inputs, s, w);
    hide Inv, Graph.Valid, Next, Enabled, Weight, Unmasked, Works, IsRun, After, FirstOnly, SoloMove;
    steps := PollThenWork(cfg, inputs, s, Check(w), Take(w, 0));
    assert NoTimeouts(steps);
    SoloMoveRun(cfg, s, steps, w);
    hide *;
  }

  lemma CheckThenTake(cfg: Config, inputs: seq<Ctx>, s: State, w: nat)
    requires cfg.g.Valid() && Inv(cfg, inputs, s) && Unmasked(s) && Solo(s, w) && s.workers[w].Checking? && s.counter > 0
    requires s.queue != [] && s.queue[0] in s.ctxs
    ensures Enabled(cfg, s, Check(w))
    ensures var m := Next(cfg, s, Check(w));
      Enabled(cfg, m, Take(w, 0)) && Works(m, Take(w, 0)) && SoloMove(s, Next(cfg, m, Take(w, 0)), w)
  {
    hide Inv, Graph.Valid, Next, Enabled, Unmasked, Works, SoloMove;
    CheckWaits(cfg, s, w);
    StepInv(cfg, inputs, s, Check(w));
    StepUnmasked(cfg, s, Check(w));
    var m := SetWorker(s, w, Waiting);
    SoloTakes(cfg, inputs, m, w);
    SoloMoveTwice(s, Next(cfg, m, Take(w, 0)), w);
  }

  lemma SoloMoveTwice(s: State, e: State, w: nat)
    requires Solo(s, w) && |e.workers| == |s.workers| && !e.workers[w].Waiting? && Unmasked(e)
    requires e.workers == SetWorker(s, w, Waiting).workers[w := e.workers[w]]
    ensures SoloMove(s, e, w)
  {
    hide Unmasked;
    assert e.workers == s.workers[w := e.workers[w]];
  }

  lemma CheckWaits(cfg: Config, s: State, w: nat)
    requires cfg.g.Valid() && w < |s.workers| && s.workers[w].Checking? && s.counter > 0
    ensures Enabled(cfg, s, Check(w)) && Next(cfg, s, Check(w)) == SetWorker(s, w, Waiting)
  {
  }

  lemma SoloTakes(cfg: Config, inputs: seq<Ctx>, m: State, w: nat)
    requires cfg.g.Valid() && Inv(cfg, inputs, m) && Unmasked(m) && w < |m.workers| && m.workers[w].Waiting?
    requires m.queue != [] && m.queue[0] in m.ctxs
    ensures Enabled(cfg, m, Take(w, 0)) && Works(m, Take(w, 0)) && Unmasked(Next(cfg, m, Take(w, 0)))
    ensures var e := Next(cfg, m, Take(w, 0));
      |e.workers| == |m.workers| && e.workers == m.workers[w := e.workers[w]] && !e.workers[w].Waiting?
  {
    assert GoodConfig(cfg);
    hide Inv, Graph.Valid, GoodConfig, TakeMove, Unmasked;
    var e := TakeShape(cfg, inputs, m, w, 0);
    hide Next;
    TakeStopsWaiting(cfg, m, e, w);
    StepUnmasked(cfg, m, Take(w, 0));
  }

  lemma TakeStopsWaiting(cfg: Config, s: State, s': State, w: nat)
    requires GoodConfig(cfg) && TakeMove(cfg, s, s', w, 0)
    ensures |s'.workers| == |s.workers| && !s'.workers[w].Waiting? && s'.workers == s.workers[w := s'.workers[w]]
  {
    hide GoodConfig, BatchOk;
  }

  lemma SoloConcat(cfg: Config, s: State, a: seq<Step>, b: seq<Step>, w: nat)
    requires SoloRun(cfg, s, a, w) && SoloRun(cfg, After(cfg, s, a), b, w)
    ensures SoloRun(cfg, s, a + b, w) && After(cfg, s, a + b) == After(cfg, After(cfg, s, a), b)
  {
    RunsConcat(cfg, s, a, b);
    FirstOnlyConcat(a, b);
    hide IsRun, After, FirstOnly;
  }

  lemma SoloNothing(cfg: Config, s: State, w: nat)
    requires cfg.g.Valid() && Solo(s, w) && Unmasked(s)
    ensures SoloRun(cfg, s, [], w) && After(cfg, s, []) == s
  {
  }

  /** One worker can do all the work that is left and leave. */
  lemma {:induction false} Alone(cfg: Config, inputs: seq<Ctx>, s: State, w: nat) returns (steps: seq<Step>)
    requires Inv(cfg, inputs, s) && Unmasked(s) && Solo(s, w)
    ensures SoloRun(cfg, s, steps, w) && After(cfg, s, steps).workers[w].Stopped?
    decreases Weight(cfg, s)
  {
    assert cfg.g.Valid();
    if s.workers[w].Stopped? {
      SoloNothing(cfg, s, w);
      steps := [];
    } else {
      var a := SoloStep(cfg, inputs, s, w);
      RunInv(cfg, inputs, s, a);
      hide Inv, IsRun, After, Weight, FirstOnly, NoTimeouts;
      var b := Alone(cfg, inputs, After(cfg, s, a), w);
      SoloConcat(cfg, s, a, b, w);
      steps := a + b;
    }
  }

  /** Once the counter is zero the workers from v on can leave one after the other. */
  lemma {:induction false} RestLeaves(cfg: Config, s: State, v: nat) returns (steps: seq<Step>)
    requires cfg.g.Valid() && s.counter <= 0 && v <= |s.workers| && forall u :: v <= u < |s.workers| ==> s.workers[u].Checking?
    ensures IsRun(cfg, s, steps) && FirstOnly(steps) && NoTimeouts(steps)
    ensures var e := After(cfg, s, steps);
      && |e.workers| == |s.workers| && e.queue == s.queue && e.counter == s.counter && e.outputs == s.outputs
      && forall u :: 0 <= u < |s.workers| ==> e.workers[u] == if u < v then s.workers[u] else Stopped
    decreases |s.workers| - v
  {
    steps := [];
    if v < |s.workers| {
      var m := Next(cfg, s, Check(v));
      var rest := RestLeaves(cfg, m, v + 1);
      steps := [Check(v)] + rest;
      assert steps[1..] == rest;
      hide Next;
    }
  }

  /** Without timeouts two workers can end badly, on any graph and any inputs: one waits in the queue while another does
      all the work, all others leave, and the one that waits is never served. All outputs are there, but `run` does
      not return. */
  lemma StuckWithoutTimeouts(cfg: Config, inputs: seq<Ctx>, n: nat) returns (steps: seq<Step>, s: State)
    requires GoodConfig(cfg) && Distinct(inputs) && inputs != [] && n >= 2
    ensures Reached(cfg, inputs, n, steps, s) && FirstOnly(steps) && NoTimeouts(steps)
    ensures |s.workers| == n && forall u :: 0 <= u < n ==> s.workers[u] == if u == 1 then Waiting else Stopped
    ensures s.queue == [] && multiset(s.outputs) == multiset(inputs)
    ensures forall step :: Enabled(cfg, s, step) ==> step == Timeout(1)
  {
    var s0 := Init(cfg, inputs, n);
    var s1 := OneWaits(cfg, inputs, n);
    var a, s2 := OneWorks(cfg, inputs, n, s1);
    assert cfg.g.Valid();
    var b := RestLeaves(cfg, s2, 2);
    s := After(cfg, s2, b);
    hide Init, Next, Enabled, IsRun, After, GoodConfig, FirstOnly, Inv;
    RunsConcat(cfg, s1, a, b);
    RunsConcat(cfg, s0, [Check(1)], a + b);
    steps := [Check(1)] + (a + b);
    FirstOnlyConcat(a, b);
    FirstOnlyConcat([Check(1)], a + b);
    RunInv(cfg, inputs, s2, b);
    StuckAtLast(cfg, inputs, n, s1, s2, s);
  }

  /** Worker 0 does all the work while worker 1 waits. */
  lemma OneWorks(cfg: Config, inputs: seq<Ctx>, n: nat, s: State) returns (steps: seq<Step>, e: State)
    requires Inv(cfg, inputs, s) && Unmasked(s) && Solo(s, 0) && n >= 2 && s.workers == seq(n, i => Checking)[1 := Waiting]
    ensures cfg.g.Valid() && IsRun(cfg, s, steps) && FirstOnly(steps) && NoTimeouts(steps) && e == After(cfg, s, steps)
    ensures Inv(cfg, inputs, e) && e.workers == s.workers[0 := Stopped] && e.counter == 0 && e.queue == []
  {
    steps := Alone(cfg, inputs, s, 0);
    e := After(cfg, s, steps);
    hide IsRun, After, FirstOnly, NoTimeouts;
    RunInv(cfg, inputs, s, steps);
    hide Inv, Unmasked;
    ZeroWhenStopped(cfg, inputs, e, 0);
    NothingLeft(cfg, inputs, e);
  }

  lemma OneWaits(cfg: Config, inputs: seq<Ctx>, n: nat) returns (s: State)
    requires GoodConfig(cfg) && Distinct(inputs) && inputs != [] && n >= 2
    ensures Inv(cfg, inputs, s) && Unmasked(s) && Solo(s, 0) && s.workers == seq(n, i => Checking)[1 := Waiting]
    ensures var s0 := Init(cfg, inputs, n); IsRun(cfg, s0, [Check(1)]) && s == After(cfg, s0, [Check(1)]) && FirstOnly([Check(1)])
  {
    var s0 := Init(cfg, inputs, n);
    InitInv(cfg, inputs, n);
    StepInv(cfg, inputs, s0, Check(1));
    OneStep(cfg, s0, Check(1));
    s := Next(cfg, s0, Check(1));
    hide Inv, GoodConfig, IsRun, After;
    assert s == SetWorker(s0, 1, Waiting);
  }

  /** Once the counter is zero and nothing was masked, the queue is empty. */
  lemma NothingLeft(cfg: Config, inputs: seq<Ctx>, s: State)
    requires Inv(cfg, inputs, s) && Unmasked(s) && s.counter <= 0
    ensures s.queue == []
  {
    NoneLive(cfg, inputs, s);
    hide GoodConfig, Owned, Counts, TraceOk, QueuedOk, OutputOk, BatchOk;
    assert forall c :: c in s.queue ==> InLine(cfg, s, c);
    assert forall c :: c in s.ctxs && s.ctxs[c].alive ==> c in Live(s);
    assert Elems(s.queue) == {};
    if s.queue != [] {
      HeadElem(s.queue);
    }
  }

  lemma StuckAtLast(cfg: Config, inputs: seq<Ctx>, n: nat, s1: State, s2: State, s: State)
    requires Inv(cfg, inputs, s) && n >= 2 && s1.workers == seq(n, i => Checking)[1 := Waiting]
    requires s2.workers == s1.workers[0 := Stopped] && |s.workers| == n && s.queue == []
    requires forall u :: 0 <= u < n ==> s.workers[u] == if u < 2 then s2.workers[u] else Stopped
    ensures forall u :: 0 <= u < n ==> s.workers[u] == if u == 1 then Waiting else Stopped
    ensures multiset(s.outputs) == multiset(inputs)
    ensures forall step :: Enabled(cfg, s, step) ==> step == Timeout(1)
  {
    hide Inv;
    assert forall u :: 0 <= u < n ==> s.workers[u] == if u == 1 then Waiting else Stopped;
    assert Elems(s.queue) <= Elems(s.outputs);
    hide Enabled;
    AllEmitted(cfg, inputs, s);
    OnlyTheWait(cfg, n, s);
  }

  lemma OnlyTheWait(cfg: Config, n: nat, s: State)
    requires n >= 2 && |s.workers| == n && s.queue == []
    requires forall u :: 0 <= u < n ==> s.workers[u] == if u == 1 then Waiting else Stopped
    ensures forall step :: Enabled(cfg, s, step) ==> step == Timeout(1)
  {
  }

  lemma ZeroWhenStopped(cfg: Config, inputs: seq<Ctx>, s: State, w: nat)
    requires Inv(cfg, inputs, s) && w < |s.workers| && s.workers[w].Stopped?
    ensures s.counter == 0
  {
    hide GoodConfig, Owned, PlacesOk, TraceOk;
  }

  /** All workers can come to their end. */
  ghost predicate CanEnd(cfg: Config, s: State) {
    cfg.g.Valid() && exists more :: IsRun(cfg, s, more) && FirstOnly(more) && AllStopped(After(cfg, s, more))
  }

  /** Exactly when `run` cannot hang: with context_queue_timeout set, with one worker, or without inputs every
      reachable state can come to its end. */
  lemma FinishesIff(cfg: Config, inputs: seq<Ctx>, n: nat)
    requires GoodConfig(cfg) && Distinct(inputs)
    ensures (forall steps, s :: Reached(cfg, inputs, n, steps, s) ==> CanEnd(cfg, s)) <==> cfg.polls || n <= 1 || inputs == []
  {
    if cfg.polls || n <= 1 || inputs == [] {
      forall steps, s | Reached(cfg, inputs, n, steps, s) ensures CanEnd(cfg, s) {
        ReachedCanEnd(cfg, inputs, n, steps, s);
      }
    } else {
      var steps, s := StuckWithoutTimeouts(cfg, inputs, n);
      forall more | IsRun(cfg, s, more) ensures !AllStopped(After(cfg, s, more)) {
        StaysStuck(cfg, s, more);
      }
    }
  }

  /** From a state in which only a wait could expire, no run leads on if waits do not expire. */
  lemma StaysStuck(cfg: Config, s: State, more: seq<Step>)
    requires cfg.g.Valid() && !cfg.polls && IsRun(cfg, s, more) && |s.workers| > 1 && s.workers[1].Waiting?
    requires forall step :: Enabled(cfg, s, step) ==> step == Timeout(1)
    ensures !AllStopped(After(cfg, s, more))
  {
    if more == [] {
      assert !s.workers[1].Stopped?;
    }
  }

  lemma ReachedCanEnd(cfg: Config, inputs: seq<Ctx>, n: nat, steps: seq<Step>, s: State)
    requires Reached(cfg, inputs, n, steps, s) && (cfg.polls || n <= 1 || inputs == [])
    ensures CanEnd(cfg, s)
  {
    ReachedInv(cfg, inputs, n, steps, s);
    if !cfg.polls {
      InitInv(cfg, inputs, n);
      RunHopeful(cfg, inputs, Init(cfg, inputs, n), steps);
    }
    var more := CanFinish(cfg, inputs, s);
  }

  // ---- all at once

  ghost predicate AllLive(s: State) {
    forall c :: c in s.queue ==> c in s.ctxs && s.ctxs[c].alive
  }

  /** Worker w asks for a context and is handed the first. */
  lemma OneMoreBusy(cfg: Config, inputs: seq<Ctx>, s: State, w: nat) returns (e: State)
    requires cfg.g.Valid() && Inv(cfg, inputs, s) && AllLive(s) && s.queue != [] && w < |s.workers| && s.workers[w].Checking?
    ensures IsRun(cfg, s, [Check(w), Take(w, 0)]) && e == After(cfg, s, [Check(w), Take(w, 0)])
    ensures Inv(cfg, inputs, e) && AllLive(e) && e.queue == s.queue[1..] && |e.workers| == |s.workers|
    ensures e.workers[w].Batch? && e.workers == s.workers[w := e.workers[w]]
  {
    hide Inv, Graph.Valid, Next, Enabled, AllLive, IsRun, After, TakeMove;
    LiveCounts(cfg, inputs, s);
    CheckWaits(cfg, s, w);
    var m := SetWorker(s, w, Waiting);
    StepInv(cfg, inputs, s, Check(w));
    CanTakeFirst(cfg, s, w);
    e := TakeShape(cfg, inputs, m, w, 0);
    StepInv(cfg, inputs, m, Take(w, 0));
    TwoSteps(cfg, s, Check(w), Take(w, 0));
    InvMeansGood(cfg, inputs, s);
    BusyNow(cfg, s, m, e, w);
  }

  lemma CanTakeFirst(cfg: Config, s: State, w: nat)
    requires AllLive(s) && s.queue != [] && w < |s.workers|
    ensures Enabled(cfg, SetWorker(s, w, Waiting), Take(w, 0))
  {
    assert s.queue[0] in s.queue;
  }

  lemma InvMeansGood(cfg: Config, inputs: seq<Ctx>, s: State)
    requires Inv(cfg, inputs, s)
    ensures GoodConfig(cfg)
  {
  }

  lemma BusyNow(cfg: Config, s: State, m: State, e: State, w: nat)
    requires GoodConfig(cfg) && w < |s.workers| && m == SetWorker(s, w, Waiting) && TakeMove(cfg, m, e, w, 0) && AllLive(s)
    ensures e.queue == s.queue[1..] && AllLive(e) && |e.workers| == |s.workers| && e.workers[w].Batch?
    ensures e.workers == s.workers[w := e.workers[w]]
  {
    hide GoodConfig, BatchOk;
    assert s.queue[0] in s.queue && s.queue[..0] + s.queue[1..] == s.queue[1..];
    assert e.workers == s.workers[w := e.workers[w]];
  }

  lemma LiveCounts(cfg: Config, inputs: seq<Ctx>, s: State)
    requires Inv(cfg, inputs, s) && AllLive(s) && s.queue != []
    ensures s.counter > 0
  {
    hide GoodConfig, Owned, PlacesOk, TraceOk;
    assert s.queue[0] in s.queue && s.queue[0] in Live(s);
  }

  lemma {:induction false} BusyFrom(cfg: Config, inputs: seq<Ctx>, s: State, v: nat) returns (steps: seq<Step>, e: State)
    requires cfg.g.Valid() && Inv(cfg, inputs, s) && AllLive(s) && v <= |s.workers| && |s.queue| >= |s.workers| - v
    requires forall w :: 0 <= w < |s.workers| ==> if w < v then s.workers[w].Batch? else s.workers[w].Checking?
    ensures IsRun(cfg, s, steps) && e == After(cfg, s, steps) && Inv(cfg, inputs, e)
    ensures |e.workers| == |s.workers| && forall w :: 0 <= w < |s.workers| ==> e.workers[w].Batch?
    decreases |s.workers| - v
  {
    hide Inv, Graph.Valid, Next, Enabled, AllLive;
    if v == |s.workers| {
      steps, e := [], s;
    } else {
      hide IsRun, After;
      var m := OneMoreBusy(cfg, inputs, s, v);
      var rest;
      rest, e := BusyFrom(cfg, inputs, m, v + 1);
      RunsConcat(cfg, s, [Check(v), Take(v, 0)], rest);
      steps := [Check(v), Take(v, 0)] + rest;
    }
  }

  /** With as many inputs as workers all workers can be busy at once, each with a context of its own. */
  lemma AllBusy(cfg: Config, inputs: seq<Ctx>, n: nat) returns (steps: seq<Step>)
    requires GoodConfig(cfg) && Distinct(inputs) && |inputs| >= n
    ensures IsRun(cfg, Init(cfg, inputs, n), steps)
    ensures var s := After(cfg, Init(cfg, inputs, n), steps);
      && |s.workers| == n && (forall w :: 0 <= w < n ==> s.workers[w].Batch?)
      && forall v, w :: 0 <= v < w < n ==> s.workers[v].ctx != s.workers[w].ctx
  {
    assert cfg.g.Valid();
    InitInv(cfg, inputs, n);
    var e;
    steps, e := BusyFrom(cfg, inputs, Init(cfg, inputs, n), 0);
    BusyApart(inputs, e);
  }

  lemma BusyApart(inputs: seq<Ctx>, s: State)
    requires Owned(inputs, s)
    ensures forall v, w :: 0 <= v < w < |s.workers| && s.workers[v].Batch? && s.workers[w].Batch? ==> s.workers[v].ctx != s.workers[w].ctx
  {
  }
}
