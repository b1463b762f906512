/** Schedules of one context, router masks and bypass stamping
    (shutils/dag/task.py, shutils/dag/executor.py). */
module Routing {
  import opened Graphs
  import opened TaskStates
  import opened Dags
  import opened Options

  // ---------------------------------------------------------------- schedules

  /** `run` lists tasks one after the other, each available when it is executed and then completed. */
  ghost predicate Runs(g: Graph, s: TState, run: seq<Task>)
    requires g.Valid()
    decreases |run|
  {
    run == [] ||
    (run[0] in g.nodes && run[0] in s.available && Runs(g, AfterComplete(g, s, run[0]), run[1..]))
  }

  ghost function Final(g: Graph, s: TState, run: seq<Task>): TState
    requires g.Valid() && Runs(g, s, run)
    decreases |run|
  {
    if run == [] then s else Final(g, AfterComplete(g, s, run[0]), run[1..])
  }

  /** Some schedule executes the sink. */
  ghost predicate Schedulable(g: Graph, s: TState, sink: Task)
    requires g.Valid()
  {
    exists run :: Runs(g, s, run) && sink in run
  }

  lemma DistinctCons(x: Task, rest: seq<Task>)
    requires Distinct(rest) && x !in rest
    ensures Distinct([x] + rest) && Elems([x] + rest) == {x} + Elems(rest)
  {
    var l := [x] + rest;
    assert forall i :: 1 <= i < |l| ==> l[i] == rest[i - 1];
  }

  /** Each task of a list comes after its upstream tasks, those of `done` aside. */
  ghost predicate AfterUpstream(g: Graph, done: set<Task>, l: seq<Task>)
    requires g.Valid()
  {
    forall i :: 0 <= i < |l| ==> l[i] in g.nodes && g.up[l[i]] <= done + Elems(l[..i])
  }

  lemma AfterUpstreamCons(g: Graph, done: set<Task>, x: Task, rest: seq<Task>)
    requires g.Valid() && x in g.nodes && g.up[x] <= done && AfterUpstream(g, done + {x}, rest)
    ensures AfterUpstream(g, done, [x] + rest)
  {
    var l := [x] + rest;
    forall i | 0 <= i < |l| ensures l[i] in g.nodes && g.up[l[i]] <= done + Elems(l[..i]) {
      if i > 0 {
        assert l[i] == rest[i - 1];
        assert l[..i] == [x] + rest[..i - 1];
      }
    }
  }

  /** Whatever the schedule: each task runs at most once, none that was completed before,
      and each only after all its upstream tasks. */
  lemma {:induction false} RunFacts(g: Graph, s: TState, run: seq<Task>)
    requires g.Valid() && Exact(g, s) && Runs(g, s, run)
    ensures Distinct(run) && Elems(run) !! s.completed && Elems(run) <= g.nodes
    ensures Final(g, s, run).completed == s.completed + Elems(run) && Exact(g, Final(g, s, run))
    ensures AfterUpstream(g, s.completed, run)
    decreases |run|
  {
    if run != [] {
      var x, rest := run[0], run[1..];
      CompleteExact(g, s, x);
      assert x !in s.completed && g.up[x] <= s.completed;
      hide Exact, AfterComplete, Distinct, AfterUpstream;
      RunFacts(g, AfterComplete(g, s, x), rest);
      assert run == [x] + rest;
      assert x !in Elems(rest);
      DistinctCons(x, rest);
      AfterUpstreamCons(g, s.completed, x, rest);
    } else {
      assert s.completed + Elems(run) == s.completed;
    }
  }

  lemma {:induction false} RunsAppend(g: Graph, s: TState, run: seq<Task>, more: seq<Task>)
    requires g.Valid() && Runs(g, s, run) && Runs(g, Final(g, s, run), more)
    ensures Runs(g, s, run + more)
    decreases |run|
  {
    if run == [] {
      assert run + more == more;
    } else {
      assert (run + more)[0] == run[0] && (run + more)[1..] == run[1..] + more;
      RunsAppend(g, AfterComplete(g, s, run[0]), run[1..], more);
    }
  }

  /** No task of `zone` is a root, and all wait only for completed tasks or for each other. */
  ghost predicate SelfContained(g: Graph, zone: set<Task>, completed: set<Task>)
    requires g.Valid()
  {
    && zone <= g.nodes
    && (forall d {:trigger Root(g, d)} :: d in zone ==> !Root(g, d))
    && (forall d {:trigger g.up[d]} :: d in zone ==> g.up[d] <= completed + zone)
  }

  /** If no task of `zone` waits for an uncompleted task outside it, some task of the zone is ready. */
  lemma {:induction false} ReadyInZone(g: Graph, zone: set<Task>, completed: set<Task>, x: Task) returns (t: Task)
    requires g.Valid() && Acyclic(g) && x in zone && x !in completed && SelfContained(g, zone, completed)
    ensures t in Ready(g, completed)
    decreases Anc(g, x)
  {
    assert !Root(g, x);
    if g.up[x] <= completed {
      t := x;
    } else {
      var u :| u in g.up[x] && u !in completed;
      DescEdge(g, u, x);
      assert u !in Anc(g, u) && u in Anc(g, x);
      t := ReadyInZone(g, zone, completed, u);
    }
  }

  /** A sink in such a zone can be scheduled. */
  lemma {:induction false} ZoneSchedules(g: Graph, zone: set<Task>, s: TState, sink: Task) returns (run: seq<Task>)
    requires g.Valid() && Acyclic(g) && Exact(g, s) && sink in zone && SelfContained(g, zone, s.completed)
    ensures sink !in s.completed ==> Runs(g, s, run) && sink in run
    decreases g.nodes - s.completed
  {
    run := [];
    if sink !in s.completed {
      var t := ReadyInZone(g, zone, s.completed, sink);
      CompleteExact(g, s, t);
      var rest := ZoneSchedules(g, zone, AfterComplete(g, s, t), sink);
      if t == sink {
        run := [sink];
        assert run[1..] == [];
      } else {
        run := [t] + rest;
        assert run[1..] == rest;
      }
    }
  }

  /** b waits for a task of `blocked`, or has no upstream task at all. */
  ghost predicate Waits(g: Graph, b: Task, blocked: set<Task>)
    requires g.Valid() && b in g.nodes
  {
    Root(g, b) || g.up[b] * blocked != {}
  }

  /** Uncompleted tasks that wait for each other, or have no upstream task at all, never run. */
  lemma {:induction false} BlockedForever(g: Graph, s: TState, blocked: set<Task>, run: seq<Task>)
    requires g.Valid() && Exact(g, s) && Runs(g, s, run) && blocked <= g.nodes && blocked !! s.completed
    requires forall b {:trigger Waits(g, b, blocked)} :: b in blocked ==> Waits(g, b, blocked)
    ensures Elems(run) !! blocked
    decreases |run|
  {
    if run != [] {
      CompleteExact(g, s, run[0]);
      assert run[0] in blocked ==> Waits(g, run[0], blocked);
      BlockedForever(g, AfterComplete(g, s, run[0]), blocked, run[1..]);
      assert run == [run[0]] + run[1..];
    }
  }

  // ---------------------------------------------------------------- which contexts can be scheduled

  /** Every task of the path is uncompleted. */
  ghost predicate OpenPath(g: Graph, completed: set<Task>, p: seq<Task>)
    requires g.Valid()
  {
    IsPath(g, p) && forall i :: 0 <= i < |p| ==> p[i] !in completed
  }

  /** A path of uncompleted tasks leads from x to y; x and y belong to it. */
  ghost predicate OpenLine(g: Graph, completed: set<Task>, x: Task, y: Task)
    requires g.Valid()
  {
    exists p :: OpenPath(g, completed, p) && p[0] == x && p[|p| - 1] == y
  }

  lemma OpenLineStep(g: Graph, completed: set<Task>, x: Task, y: Task, z: Task)
    requires g.Valid() && OpenLine(g, completed, x, y) && y in g.nodes && z in g.down[y] && z !in completed
    ensures OpenLine(g, completed, x, z)
  {
    var p :| OpenPath(g, completed, p) && p[0] == x && p[|p| - 1] == y;
    var q := p + [z];
    forall i, j | 0 <= i < |q| - 1 && j == i + 1 ensures q[j] in g.down[q[i]] {
      if j < |p| { assert p[j] in g.down[p[i]]; }
    }
    assert OpenPath(g, completed, q);
  }

  lemma OpenLineEnds(g: Graph, completed: set<Task>, x: Task, y: Task)
    requires g.Valid() && OpenLine(g, completed, x, y)
    ensures x in g.nodes && x !in completed && y in g.nodes && y !in completed
    ensures y == x || exists u :: u in g.up[y] && OpenLine(g, completed, x, u)
  {
    var p :| OpenPath(g, completed, p) && p[0] == x && p[|p| - 1] == y;
    if |p| > 1 {
      var q := p[..|p| - 1];
      var u := q[|q| - 1];
      assert p[|p| - 1] in g.down[p[|p| - 2]];
      forall i, j | 0 <= i < |q| - 1 && j == i + 1 ensures q[j] in g.down[q[i]] {
        assert p[j] in g.down[p[i]];
      }
      assert OpenPath(g, completed, q);
      assert u in g.up[y] && OpenLine(g, completed, x, u);
    }
  }

  /** If nothing below d is completed, an uncompleted path to d goes on to the sink. */
  lemma {:induction false} OpenOn(g: Graph, source: Task, sink: Task, completed: set<Task>, x: Task, d: Task)
    requires Built(g, source, sink) && d in g.nodes && Desc(g, d) !! completed && OpenLine(g, completed, x, d)
    ensures OpenLine(g, completed, x, sink)
    decreases Desc(g, d)
  {
    if d != sink {
      assert !Leaf(g, d);
      var e :| e in g.down[d];
      DescEdge(g, d, e);
      assert e !in Desc(g, e) && e in Desc(g, d);
      OpenLineStep(g, completed, x, d, e);
      OpenOn(g, source, sink, completed, x, e);
    }
  }

  /** Completing more tasks opens no path. */
  lemma FewerOpenLines(g: Graph, c: set<Task>, c': set<Task>, x: Task, y: Task)
    requires g.Valid() && c <= c' && OpenLine(g, c', x, y)
    ensures OpenLine(g, c, x, y)
  {
    var p :| OpenPath(g, c', p) && p[0] == x && p[|p| - 1] == y;
    assert OpenPath(g, c, p);
  }

  /** The uncompleted tasks to which a path of uncompleted tasks leads from the source. */
  ghost function BehindSource(g: Graph, completed: set<Task>, source: Task): set<Task>
    requires g.Valid()
  {
    set x | x in g.nodes && OpenLine(g, completed, source, x)
  }

  lemma OpenLineBlocks(g: Graph, source: Task, sink: Task, s: TState, run: seq<Task>)
    requires Built(g, source, sink) && Exact(g, s) && Runs(g, s, run)
    requires OpenLine(g, s.completed, source, sink)
    ensures sink !in run
  {
    var blocked := BehindSource(g, s.completed, source);
    forall b | b in blocked ensures b in g.nodes && b !in s.completed && Waits(g, b, blocked) {
      OpenLineEnds(g, s.completed, source, b);
      if b != source {
        var u :| u in g.up[b] && OpenLine(g, s.completed, source, u);
        assert u in g.up[b] * blocked;
      } else {
        assert Root(g, b);
      }
    }
    BlockedForever(g, s, blocked, run);
    OpenLineEnds(g, s.completed, source, sink);
    assert sink in run ==> sink in Elems(run);
  }

  lemma NoOpenLineSchedules(g: Graph, source: Task, sink: Task, s: TState)
    requires Built(g, source, sink) && Exact(g, s) && sink !in s.completed
    requires !OpenLine(g, s.completed, source, sink)
    ensures Schedulable(g, s, sink)
  {
    var zone := g.nodes - s.completed - BehindSource(g, s.completed, source);
    if source !in s.completed {
      assert OpenPath(g, s.completed, [source]);
      assert source in BehindSource(g, s.completed, source);
    }
    forall d | d in zone ensures !Root(g, d) && g.up[d] <= s.completed + zone {
      forall u | u in g.up[d] ensures u in s.completed + zone {
        if u !in s.completed && OpenLine(g, s.completed, source, u) {
          OpenLineStep(g, s.completed, source, u, d);
        }
      }
    }
    assert sink in zone;
    var run := ZoneSchedules(g, zone, s, sink);
  }

  /** Whatever was completed, masked or stamped before: a context can be scheduled to the sink exactly when no
      path from the source to the sink consists of uncompleted tasks only. */
  lemma SchedulableIff(g: Graph, source: Task, sink: Task, s: TState)
    requires Built(g, source, sink) && Exact(g, s) && sink !in s.completed
    ensures Schedulable(g, s, sink) <==> !OpenLine(g, s.completed, source, sink)
  {
    if OpenLine(g, s.completed, source, sink) {
      forall run | Runs(g, s, run) ensures sink !in run {
        OpenLineBlocks(g, source, sink, s, run);
      }
    } else {
      NoOpenLineSchedules(g, source, sink, s);
    }
  }

  // ---------------------------------------------------------------- router

  /** The chosen children and everything below them. */
  ghost function Kept(g: Graph, chosen: set<Task>): set<Task>
    requires g.Valid()
  {
    DescOf(g, chosen) + chosen
  }

  /** What the router masks. */
  ghost function MaskOf(g: Graph, router: Task, chosen: set<Task>): set<Task>
    requires g.Valid() && router in g.nodes
  {
    Kept(g, g.down[router] - chosen) - Kept(g, chosen)
  }

  /** The situation in which a router runs: it is available and no task was completed before its upstream tasks. */
  ghost predicate RouterReady(g: Graph, source: Task, sink: Task, s: TState, router: Task) {
    && Built(g, source, sink)
    && Exact(g, s) && router in s.available
    && s.completed <= g.nodes && source in s.completed
    && (forall t :: t in s.completed ==> g.up[t] <= s.completed)
    && router != sink
  }

  lemma KeptIsBelow(g: Graph, router: Task, chosen: set<Task>)
    requires g.Valid() && router in g.nodes && chosen <= g.down[router]
    ensures Kept(g, chosen) <= Desc(g, router)
    ensures forall k :: k in Kept(g, chosen) ==> g.down[k] <= Kept(g, chosen)
  {
    DescUnfold(g, router);
    forall k | k in Kept(g, chosen)
      ensures k in Desc(g, router) && g.down[k] <= Kept(g, chosen)
    {
      DescUnfold(g, k);
      if k !in chosen {
        var c :| c in chosen && k in Desc(g, c);
        DescTrans(g, c, k);
      }
    }
  }

  /** No kept task has been completed yet. */
  lemma KeptIsOpen(g: Graph, source: Task, sink: Task, s: TState, router: Task, chosen: set<Task>)
    requires RouterReady(g, source, sink, s, router) && chosen <= g.down[router]
    ensures Kept(g, chosen) !! s.completed && router !in Kept(g, chosen)
  {
    KeptIsBelow(g, router, chosen);
    forall k | k in Kept(g, chosen)
      ensures k !in s.completed
    {
      DescTrans(g, router, k);
      if k in s.completed {
        UpClosedHoldsAncestors(g, s.completed, k);
      }
    }
  }

  /** A router masks all that is below it but what it picked and what is below that. */
  lemma MaskIs(g: Graph, router: Task, chosen: set<Task>)
    requires g.Valid() && router in g.nodes && chosen <= g.down[router]
    ensures MaskOf(g, router, chosen) == Desc(g, router) - chosen - DescOf(g, chosen)
  {
    DescUnfold(g, router);
    assert DescOf(g, g.down[router]) == DescOf(g, g.down[router] - chosen) + DescOf(g, chosen);
  }

  /** The mask spares the sink exactly when the router chose at least one child. */
  lemma MaskSparesSinkIff(g: Graph, source: Task, sink: Task, router: Task, chosen: set<Task>)
    requires Built(g, source, sink) && router in g.nodes && router != sink && chosen <= g.down[router]
    ensures sink !in MaskOf(g, router, chosen) <==> chosen != {}
  {
    if chosen != {} {
      var c :| c in chosen;
      if c != sink {
        SinkBelow(g, source, sink, c);
      }
      assert sink in Kept(g, chosen);
    } else {
      assert !Leaf(g, router);
      var d :| d in g.down[router];
      if d != sink {
        SinkBelow(g, source, sink, d);
      }
      assert d in g.down[router] - chosen;
      assert sink in Kept(g, g.down[router] - chosen);
    }
  }

  /** A schedule that executes the sink has executed every task from which an uncompleted path led to it. */
  lemma {:induction false} OpenRunsBefore(g: Graph, s: TState, run: seq<Task>, p: seq<Task>)
    requires g.Valid() && Exact(g, s) && Runs(g, s, run) && OpenPath(g, s.completed, p) && p[|p| - 1] in run
    ensures p[0] in run
    decreases |p|
  {
    if |p| > 1 {
      var q := p[1..];
      assert p[1] in g.down[p[0]];
      forall i, j | 0 <= i < |q| - 1 && j == i + 1 ensures q[j] in g.down[q[i]] {
        assert p[j + 1] in g.down[p[i + 1]];
      }
      OpenRunsBefore(g, s, run, q);
      RunFacts(g, s, run);
      var j :| 0 <= j < |run| && run[j] == q[0];
      assert p[0] in g.up[q[0]];
      assert p[0] in Elems(run[..j]);
    }
  }

  /** The sink can still be reached after any further tasks have run. */
  lemma Continues(g: Graph, source: Task, sink: Task, s: TState, run: seq<Task>)
    requires Built(g, source, sink) && Exact(g, s) && Runs(g, s, run)
    requires sink !in s.completed && !OpenLine(g, s.completed, source, sink)
    ensures exists more :: Runs(g, s, run + more) && sink in run + more
  {
    if sink in run {
      assert run + [] == run;
    } else {
      RunFacts(g, s, run);
      var e := Final(g, s, run);
      if OpenLine(g, e.completed, source, sink) {
        FewerOpenLines(g, s.completed, e.completed, source, sink);
      }
      NoOpenLineSchedules(g, source, sink, e);
      var more :| Runs(g, e, more) && sink in more;
      RunsAppend(g, s, run, more);
      assert sink in run + more;
    }
  }

  /** A router runs, in a context that other routers or a bypass may have masked before: no uncompleted path leads
      from the source to the sink, as in every context that can be scheduled at all. */
  ghost predicate RouterRuns(g: Graph, source: Task, sink: Task, s: TState, router: Task) {
    && Built(g, source, sink) && Exact(g, s)
    && router in s.available && router != sink && sink !in s.completed
    && !OpenLine(g, s.completed, source, sink)
  }

  /** After a router has masked and completed, in whatever order and whatever was masked before, every schedule
      - executes no masked task, and each task at most once;
      - has executed, if it has executed the sink, every task from which an uncompleted path led to the sink;
      - can be continued until it executes the sink. */
  lemma RoutedSchedules(g: Graph, source: Task, sink: Task, s: TState, router: Task, chosen: set<Task>, s': TState, run: seq<Task>)
    requires RouterRuns(g, source, sink, s, router) && chosen <= g.down[router] && chosen != {}
    requires Exact(g, s') && s'.completed == s.completed + MaskOf(g, router, chosen) + {router}
    requires Runs(g, s', run)
    ensures Distinct(run) && Elems(run) !! MaskOf(g, router, chosen) && Elems(run) !! s.completed + {router}
    ensures Elems(run) * Desc(g, router) <= chosen + DescOf(g, chosen)
    ensures forall k :: sink in run && OpenLine(g, s'.completed, k, sink) ==> k in run
    ensures exists more :: Runs(g, s', run + more) && sink in run + more
  {
    RunFacts(g, s', run);
    MaskIs(g, router, chosen);
    forall k | sink in run && OpenLine(g, s'.completed, k, sink) ensures k in run {
      var p :| OpenPath(g, s'.completed, p) && p[0] == k && p[|p| - 1] == sink;
      OpenRunsBefore(g, s', run, p);
    }
    MaskSparesSinkIff(g, source, sink, router, chosen);
    if OpenLine(g, s'.completed, source, sink) {
      FewerOpenLines(g, s.completed, s'.completed, source, sink);
    }
    Continues(g, source, sink, s', run);
  }

  /** In a context nothing else has masked, that covers the chosen tasks and all tasks below them. */
  lemma RouterSchedules(g: Graph, source: Task, sink: Task, s: TState, router: Task, chosen: set<Task>, s': TState, run: seq<Task>)
    requires RouterReady(g, source, sink, s, router) && chosen <= g.down[router] && chosen != {}
    requires Exact(g, s') && s'.completed == s.completed + MaskOf(g, router, chosen) + {router}
    requires Runs(g, s', run)
    ensures Distinct(run) && Elems(run) !! MaskOf(g, router, chosen) && Elems(run) !! s.completed + {router}
    ensures sink in run ==> Kept(g, chosen) <= Elems(run)
    ensures exists more :: Runs(g, s', run + more) && sink in run + more
  {
    KeptIsOpen(g, source, sink, s, router, chosen);
    RouterReadyRuns(g, source, sink, s, router);
    RoutedSchedules(g, source, sink, s, router, chosen, s', run);
    hide RouterReady, RouterRuns, Exact, OpenLine;
    KeptLeadsOn(g, source, sink, router, chosen, s'.completed);
  }

  lemma KeptLeadsOn(g: Graph, source: Task, sink: Task, router: Task, chosen: set<Task>, completed: set<Task>)
    requires Built(g, source, sink) && router in g.nodes && chosen <= g.down[router] && Kept(g, chosen) !! completed
    ensures forall k :: k in Kept(g, chosen) ==> OpenLine(g, completed, k, sink)
  {
    forall k | k in Kept(g, chosen) ensures OpenLine(g, completed, k, sink) {
      KeptClosed(g, router, chosen, k);
      assert OpenPath(g, completed, [k]);
      OpenOn(g, source, sink, completed, k, k);
    }
  }

  lemma RouterReadyRuns(g: Graph, source: Task, sink: Task, s: TState, router: Task)
    requires RouterReady(g, source, sink, s, router)
    ensures RouterRuns(g, source, sink, s, router)
  {
    if OpenLine(g, s.completed, source, sink) {
      OpenLineEnds(g, s.completed, source, sink);
    }
    if sink in s.completed {
      SinkBelow(g, source, sink, router);
      DescTrans(g, router, sink);
      UpClosedHoldsAncestors(g, s.completed, sink);
    }
  }

  lemma KeptClosed(g: Graph, router: Task, chosen: set<Task>, k: Task)
    requires g.Valid() && router in g.nodes && chosen <= g.down[router] && k in Kept(g, chosen)
    ensures k in g.nodes && Desc(g, k) <= Kept(g, chosen)
  {
    if k !in chosen {
      DescSetDownClosed(g, chosen, k);
    }
  }

  // ---------------------------------------------------------------- any number of routers

  /** What can happen to a context before its sink: a task runs, or a router runs and masks. */
  datatype Move = Ran(task: Task) | Routed(router: Task, chosen: set<Task>)

  ghost predicate MayMove(g: Graph, sink: Task, s: TState, m: Move)
    requires g.Valid()
  {
    match m
    case Ran(t) => t in g.nodes && t in s.available && t != sink
    case Routed(r, chosen) => r in g.nodes && r in s.available && r != sink && chosen <= g.down[r] && chosen != {}
  }

  ghost function Moved(g: Graph, sink: Task, s: TState, m: Move): TState
    requires g.Valid() && MayMove(g, sink, s, m)
  {
    With(g, s, match m case Ran(t) => {t} case Routed(r, chosen) => MaskOf(g, r, chosen) + {r})
  }

  ghost predicate Moves(g: Graph, sink: Task, s: TState, ms: seq<Move>)
    requires g.Valid()
    decreases |ms|
  {
    ms == [] || (MayMove(g, sink, s, ms[0]) && Moves(g, sink, Moved(g, sink, s, ms[0]), ms[1..]))
  }

  ghost function AfterMoves(g: Graph, sink: Task, s: TState, ms: seq<Move>): TState
    requires g.Valid() && Moves(g, sink, s, ms)
    decreases |ms|
  {
    if ms == [] then s else AfterMoves(g, sink, Moved(g, sink, s, ms[0]), ms[1..])
  }

  /** However many routers run, in whatever order with other tasks: as long as each picks at least one child, the
      sink is never masked and can still be scheduled; also in a context stamped with bypass tasks. */
  lemma {:induction false} SinkSurvivesRouters(g: Graph, source: Task, sink: Task, s: TState, ms: seq<Move>)
    requires Built(g, source, sink) && Exact(g, s) && sink !in s.completed && Moves(g, sink, s, ms)
    requires Schedulable(g, s, sink)
    ensures var e := AfterMoves(g, sink, s, ms);
      Exact(g, e) && s.completed <= e.completed && sink !in e.completed && Schedulable(g, e, sink)
    decreases |ms|
  {
    if ms != [] {
      var s' := Moved(g, sink, s, ms[0]);
      if ms[0].Routed? {
        MaskSparesSinkIff(g, source, sink, ms[0].router, ms[0].chosen);
      }
      SchedulableIff(g, source, sink, s);
      SchedulableIff(g, source, sink, s');
      if OpenLine(g, s'.completed, source, sink) {
        FewerOpenLines(g, s.completed, s'.completed, source, sink);
      }
      SinkSurvivesRouters(g, source, sink, s', ms[1..]);
    }
  }

  /** A router may name a task by id or hand over the task itself. */
  datatype Route = ByName(name: string) | ByTask(task: Task)

  function RouteTask(r: Route): Task {
    match r case ByName(n) => Task(n) case ByTask(t) => t
  }

  ghost predicate RouteOk(g: Graph, tasks: set<Task>, router: Task, r: Route)
    requires router in g.down
  {
    RouteTask(r) in g.down[router] && (r.ByName? ==> RouteTask(r) in tasks)
  }

  function RouteTasks(rs: seq<Route>): set<Task> {
    set r | r in rs :: RouteTask(r)
  }

  /** First half of `AsyncRouterTask.call`: the chosen children, or None when the context is destroyed. */
  method ResolveRoutes(dag: DAG, router: Task, routes: seq<Route>) returns (chosen: Option<set<Task>>)
    requires router in dag.down
    ensures chosen.None? <==> exists r :: r in routes && !RouteOk(dag.View(), dag.tasks, router, r)
    ensures chosen.Some? ==> chosen.value == RouteTasks(routes) && chosen.value <= dag.down[router]
  {
    var found: set<Task> := {};
    for i := 0 to |routes|
      invariant found == RouteTasks(routes[..i]) && found <= dag.down[router]
      invariant forall j :: 0 <= j < i ==> RouteOk(dag.View(), dag.tasks, router, routes[j])
    {
      var task := RouteTask(routes[i]);
      assert routes[i] in routes;
      if routes[i].ByName? && task !in dag.tasks {
        return None;
      }
      if task !in dag.down[router] {
        return None;
      }
      assert routes[..i + 1] == routes[..i] + [routes[i]];
      found := found + {task};
    }
    assert routes[..|routes|] == routes;
    chosen := Some(found);
  }

  /** `AsyncRouterTask.call` after the user function has returned. */
  method RouterCall(dag: DAG, st: TaskState, router: Task, routes: seq<Route>) returns (destroyed: bool)
    requires dag.View().Valid() && Connected(dag.View(), dag.inTask, dag.outTask) && dag.Fresh()
    requires Acyclic(dag.View()) && router in dag.View().nodes
    requires !st.skipComplete && Exact(dag.View(), st.View())
    modifies st, dag`downstreamTasks
    ensures dag.Fresh() && !st.skipComplete && Exact(dag.View(), st.View())
    ensures destroyed <==> exists r :: r in routes && !RouteOk(dag.View(), dag.tasks, router, r)
    ensures destroyed ==> st.View() == old(st.View())
    ensures !destroyed ==>
      var g, picked := dag.View(), RouteTasks(routes);
      st.completedTasks == old(st.completedTasks) + (Desc(g, router) - picked - DescOf(g, picked))
  {
    var chosen := ResolveRoutes(dag, router, routes);
    destroyed := chosen.None?;
    if !destroyed {
      MaskIs(dag.View(), router, chosen.value);
      MaskUnrouted(dag, st, router, chosen.value);
    }
  }

  /** Second half of `AsyncRouterTask.call`. */
  method MaskUnrouted(dag: DAG, st: TaskState, router: Task, chosen: set<Task>)
    requires dag.View().Valid() && Connected(dag.View(), dag.inTask, dag.outTask) && dag.Fresh()
    requires Acyclic(dag.View()) && router in dag.View().nodes && chosen <= dag.down[router]
    requires !st.skipComplete && Exact(dag.View(), st.View())
    modifies st, dag`downstreamTasks
    ensures dag.Fresh() && !st.skipComplete && Exact(dag.View(), st.View())
    ensures st.completedTasks == old(st.completedTasks) + MaskOf(dag.View(), router, chosen)
  {
    ghost var g := dag.View();
    forall t | t in g.nodes ensures LeadsTo(g, t, dag.outTask) {
      ConnectedLeads(g, dag.inTask, dag.outTask, t);
    }
    assert dag.down[router] <= g.nodes;
    var routed := dag.GetAllDownstreamTasks(chosen, true);
    var unrouted := dag.GetAllDownstreamTasks(dag.down[router] - chosen, true);
    CompleteSet(dag, st, unrouted.value - routed.value);
  }

  /** Completes the tasks of a set, in any order. */
  method CompleteSet(dag: DAG, st: TaskState, ts: set<Task>)
    requires dag.View().Valid() && ts <= dag.View().nodes && !st.skipComplete && Exact(dag.View(), st.View())
    modifies st
    ensures !st.skipComplete && Exact(dag.View(), st.View())
    ensures st.completedTasks == old(st.completedTasks) + ts
  {
    var g := Graph(dag.up.Keys, dag.up, dag.down);
    var todo := ts;
    while todo != {}
      invariant todo <= ts && !st.skipComplete && Exact(g, st.View())
      invariant st.completedTasks == old(st.completedTasks) + (ts - todo)
    {
      var t :| t in todo;
      todo := todo - {t};
      CompleteExact(g, st.View(), t);
      st.Complete(g, t);
    }
  }

  // ---------------------------------------------------------------- bypass

  /** Tasks neither above, nor below, nor among `ran`. */
  ghost function Bypass(g: Graph, ran: set<Task>): set<Task>
    requires g.Valid()
  {
    g.nodes - DescOf(g, ran) - AncOf(g, ran) - ran
  }

  lemma BypassIff(g: Graph, ran: set<Task>, t: Task)
    requires g.Valid() && ran <= g.nodes
    ensures t in Bypass(g, ran) <==> t in g.nodes && forall r :: r in ran ==> Unordered(g, t, r)
  {
    hide Desc, Anc;
    forall r | r in ran && t in g.nodes ensures t in Anc(g, r) <==> r in Desc(g, t) { AncIffDesc(g, t, r); }
  }

  lemma BypassAll(g: Graph, ran: set<Task>)
    requires g.Valid() && ran <= g.nodes
    ensures forall t :: t in Bypass(g, ran) <==> t in g.nodes && forall r :: r in ran ==> Unordered(g, t, r)
  {
    forall t ensures t in Bypass(g, ran) <==> t in g.nodes && forall r :: r in ran ==> Unordered(g, t, r) {
      BypassIff(g, ran, t);
    }
  }

  lemma AncIffDesc(g: Graph, t: Task, r: Task)
    requires g.Valid() && t in g.nodes && r in g.nodes
    ensures t in Anc(g, r) <==> r in Desc(g, t)
  {
  }

  /** Neither task is the other, or below it. */
  ghost predicate Unordered(g: Graph, t: Task, r: Task)
    requires g.Valid()
  {
    t != r && t !in Desc(g, r) && r !in Desc(g, t)
  }

  ghost predicate Antichain(g: Graph, ran: set<Task>)
    requires g.Valid()
  {
    forall x, y :: x in ran && y in ran ==> y !in Desc(g, x)
  }

  /** An edge that jumps from above `ran` to below it. */
  ghost predicate Crossing(g: Graph, ran: set<Task>, a: Task, d: Task)
    requires g.Valid()
  {
    a in AncOf(g, ran) && d in DescOf(g, ran) && a in g.up[d]
  }

  /** Tasks available at the same time are unordered exactly when no completed task lies below an available one and
      right above another. */
  lemma AvailableAntichainIff(g: Graph, s: TState)
    requires g.Valid() && Exact(g, s)
    ensures Antichain(g, s.available)
      <==> forall x, u :: x in s.available && u in s.completed && u in Desc(g, x) ==> g.down[u] !! s.available
  {
    forall x, u | x in s.available && u in s.completed && u in Desc(g, x) && !(g.down[u] !! s.available)
      ensures !Antichain(g, s.available)
    {
      var y :| y in g.down[u] && y in s.available;
      DescEdge(g, u, y);
      DescTrans(g, x, u);
    }
    forall x, y | x in s.available && y in s.available && y in Desc(g, x)
      ensures exists u :: u in s.completed && u in Desc(g, x) && y in g.down[u]
    {
      LastStep(g, x, y);
      var u :| u in g.up[y] && (u == x || u in Desc(g, x));
      assert u in s.completed;
    }
  }

  /** So they are unordered in every context in which nothing was completed before its upstream tasks, that is,
      nothing was masked. */
  lemma AvailableIsAntichain(g: Graph, s: TState)
    requires g.Valid() && Acyclic(g) && Exact(g, s) && s.completed <= g.nodes
    requires forall t :: t in s.completed ==> g.up[t] <= s.completed
    ensures Antichain(g, s.available)
  {
    forall x, u | x in s.available && u in s.completed ensures u !in Desc(g, x) {
      UpClosedHoldsAncestors(g, s.completed, u);
      if u in Desc(g, x) {
        DescTrans(g, x, u);
      }
    }
    AvailableAntichainIff(g, s);
  }

  /** A source, a router r beside a chain w, x, and below them m, d and e; r leads to m and d, x to m and e. */
  datatype Diamond = Diamond(src: Task, r: Task, w: Task, x: Task, m: Task, d: Task, e: Task, snk: Task) {
    predicate AllDifferent() {
      && src !in {r, w, x, m, d, e, snk} && r !in {w, x, m, d, e, snk} && w !in {x, m, d, e, snk}
      && x !in {m, d, e, snk} && m !in {d, e, snk} && d !in {e, snk} && e != snk
    }

    function Graph(): Graph {
      Graphs.Graph({src, r, w, x, m, d, e, snk},
                   map[src := {}, r := {src}, w := {src}, x := {w}, m := {x, r}, d := {r, m}, e := {x}, snk := {d, e}],
                   map[src := {r, w}, r := {m, d}, w := {x}, x := {m, e}, m := {d}, d := {snk}, e := {snk}, snk := {}])
    }

    function Rank(t: Task): int {
      if t == src then 0 else if t == r || t == w then 1 else if t == x then 2 else if t == m || t == e then 3
      else if t == d then 4 else 5
    }

    ghost predicate Shape(g: Graph) {
      && g.Valid() && g.nodes == {src, r, w, x, m, d, e, snk}
      && g.up[src] == {} && g.up[r] == {src} && g.up[w] == {src} && g.up[x] == {w} && g.up[m] == {x, r}
      && g.up[d] == {r, m} && g.up[e] == {x} && g.up[snk] == {d, e}
      && g.down[src] == {r, w} && g.down[r] == {m, d} && g.down[w] == {x} && g.down[x] == {m, e} && g.down[m] == {d}
      && g.down[d] == {snk} && g.down[e] == {snk} && g.down[snk] == {}
    }
  }

  lemma DiamondShape(k: Diamond)
    requires k.AllDifferent()
    ensures k.Shape(k.Graph())
  {
  }

  /** A graph whose edges all lead from a lower to a higher rank has no cycle. */
  lemma RankedIsAcyclic(g: Graph, rank: Task -> int)
    requires g.Valid() && forall x, y :: x in g.nodes && y in g.down[x] ==> rank(x) < rank(y)
    ensures Acyclic(g)
  {
    forall x | x in g.nodes ensures x !in Desc(g, x) {
      if Reaches(g, x, x) {
        var p :| IsPath(g, p) && |p| >= 2 && p[0] == x && p[|p| - 1] == x;
        PathRises(g, rank, p);
      }
    }
  }

  lemma {:induction false} PathRises(g: Graph, rank: Task -> int, p: seq<Task>)
    requires g.Valid() && forall x, y :: x in g.nodes && y in g.down[x] ==> rank(x) < rank(y)
    requires IsPath(g, p) && |p| >= 2
    ensures rank(p[0]) < rank(p[|p| - 1])
    decreases |p|
  {
    assert p[1] in g.down[p[0]];
    if |p| > 2 {
      var q := p[1..];
      forall i, j | 0 <= i < |q| - 1 && j == i + 1 ensures q[j] in g.down[q[i]] {
        assert p[j + 1] in g.down[p[i + 1]];
      }
      PathRises(g, rank, q);
    }
  }

  lemma DiamondBuilt(k: Diamond, g: Graph)
    requires k.AllDifferent() && k.Shape(g)
    ensures Built(g, k.src, k.snk)
  {
    RankedIsAcyclic(g, t => k.Rank(t));
    hide Acyclic;
  }

  lemma DiamondDesc(k: Diamond, g: Graph)
    requires k.Shape(g)
    ensures Desc(g, k.d) == {k.snk} == Desc(g, k.e) && Desc(g, k.m) == {k.d, k.snk} && k.d in Desc(g, k.x)
  {
    DescUnfold(g, k.snk);
    DescUnfold(g, k.d);
    DescUnfold(g, k.e);
    DescUnfold(g, k.m);
    DescUnfold(g, k.x);
  }

  lemma DiamondMasks(k: Diamond, g: Graph)
    requires k.AllDifferent() && k.Shape(g)
    ensures MaskOf(g, k.r, {k.d}) == {k.m} && MaskOf(g, k.x, {k.e}) == {k.m, k.d}
  {
    DiamondDesc(k, g);
    hide Desc;
    assert DescOf(g, {k.d}) == {k.snk} == DescOf(g, {k.e});
    assert g.down[k.r] - {k.d} == {k.m} == g.down[k.x] - {k.e};
    assert DescOf(g, {k.m}) == {k.d, k.snk};
  }

  lemma DiamondReady(k: Diamond, g: Graph)
    requires k.AllDifferent() && k.Shape(g)
    ensures Ready(g, {k.src}) == {k.r, k.w}
    ensures Ready(g, {k.src, k.m, k.r}) == {k.w, k.d}
    ensures Ready(g, {k.src, k.m, k.r, k.w}) == {k.x, k.d}
  {
  }

  lemma TwoMoves(g: Graph, sink: Task, s: TState, a: Move, b: Move)
    requires g.Valid() && MayMove(g, sink, s, a) && MayMove(g, sink, Moved(g, sink, s, a), b)
    ensures Moves(g, sink, s, [a, b])
    ensures AfterMoves(g, sink, s, [a, b]) == Moved(g, sink, Moved(g, sink, s, a), b)
  {
    var s1 := Moved(g, sink, s, a);
    assert [a, b][1..] == [b] && [b][1..] == [];
    hide MayMove, Moved;
    assert Moves(g, sink, Moved(g, sink, s1, b), []) && Moves(g, sink, s1, [b]);
    assert AfterMoves(g, sink, s1, [b]) == AfterMoves(g, sink, Moved(g, sink, s1, b), []);
  }

  /** Behind a router the tasks of one batch can be ordered: r picks d, so that m is masked, and once r and w have
      run, x and d are available together although d lies below x. If x is a router too and picks e, it masks d, which
      is in its own batch. There are such graphs on any eight tasks. */
  lemma RoutedBatchIsOrdered(k: Diamond, g: Graph)
    requires k.AllDifferent() && k.Shape(g)
    ensures var s, moves := TState({k.src}, {k.r, k.w}), [Routed(k.r, {k.d}), Ran(k.w)];
      && RouterReady(g, k.src, k.snk, s, k.r) && Moves(g, k.snk, s, moves)
      && AfterMoves(g, k.snk, s, moves).available == {k.x, k.d}
      && !Antichain(g, {k.x, k.d}) && MaskOf(g, k.x, {k.e}) == {k.m, k.d}
    ensures k.Shape(k.Graph())
  {
    var s, first, second := TState({k.src}, {k.r, k.w}), Routed(k.r, {k.d}), Ran(k.w);
    DiamondShape(k);
    DiamondReady(k, g);
    DiamondBuilt(k, g);
    DiamondMasks(k, g);
    DiamondDesc(k, g);
    hide Desc, Built, MaskOf, Ready;
    assert {k.src} + ({k.m} + {k.r}) == {k.src, k.m, k.r};
    assert {k.src, k.m, k.r} + {k.w} == {k.src, k.m, k.r, k.w};
    TwoMoves(g, k.snk, s, first, second);
  }

  /** A router masks no task of its own batch, that is, none available beside it, exactly when what was completed early
      among the tasks it masks leads to no available task but those it keeps. */
  lemma BatchSparedIff(g: Graph, s: TState, router: Task, chosen: set<Task>)
    requires g.Valid() && Exact(g, s) && router in s.available && chosen <= g.down[router]
    ensures MaskOf(g, router, chosen) !! s.available
      <==> forall u :: u in s.completed && u in MaskOf(g, router, chosen) ==> g.down[u] * s.available <= Kept(g, chosen)
  {
    var unchosen := g.down[router] - chosen;
    KeptIsBelow(g, router, chosen);
    KeptIsBelow(g, router, unchosen);
    forall x | x in MaskOf(g, router, chosen) && x in s.available
      ensures exists u :: u in s.completed && u in MaskOf(g, router, chosen) && x in g.down[u]
    {
      assert x !in unchosen;
      var y :| y in unchosen && x in Desc(g, y);
      LastStep(g, y, x);
      var u :| u in g.up[x] && (u == y || u in Desc(g, y));
      assert u in Kept(g, unchosen) && u in s.completed && x in g.down[u];
    }
  }

  /** In a context in which nothing was masked a router masks no task of its own batch. */
  lemma ReadyRouterSparesBatch(g: Graph, source: Task, sink: Task, s: TState, router: Task, chosen: set<Task>)
    requires RouterReady(g, source, sink, s, router) && chosen <= g.down[router]
    ensures MaskOf(g, router, chosen) !! s.available
  {
    KeptIsOpen(g, source, sink, s, router, g.down[router] - chosen);
    BatchSparedIff(g, s, router, chosen);
  }

  lemma AncSetUpClosed(g: Graph, ran: set<Task>, x: Task)
    requires g.Valid() && x in AncOf(g, ran)
    ensures g.up[x] <= AncOf(g, ran)
  {
    var r :| r in ran && x in Anc(g, r);
    ReachesFirst(g, x, r);
    forall u | u in g.up[x]
      ensures u in AncOf(g, ran)
    {
      assert r in Desc(g, x);
      DescTrans(g, x, r);
      DescEdge(g, u, x);
      assert u in Anc(g, r);
    }
  }

  lemma DescSetDownClosed(g: Graph, ran: set<Task>, x: Task)
    requires g.Valid() && x in DescOf(g, ran)
    ensures Desc(g, x) <= DescOf(g, ran)
  {
    var r :| r in ran && x in Desc(g, r);
    DescTrans(g, r, x);
  }

  /** For any tasks `ran`, ordered or not: a new context stamped with them and with their bypass tasks can be
      scheduled to the sink exactly when every path from the source to the sink meets one of them or a
      bypass task. */
  lemma StampedSchedulableIff(g: Graph, source: Task, sink: Task, ran: set<Task>, stamps: seq<Task>)
    requires Built(g, source, sink) && ran != {} && ran <= g.nodes && sink !in ran
    requires Elems(stamps) == ran + Bypass(g, ran)
    ensures forall t :: t in stamps ==> t in g.nodes
    ensures Schedulable(g, CompleteAll(g, TState({}, {}), stamps), sink)
            <==> !OpenLine(g, ran + Bypass(g, ran), source, sink)
  {
    forall t | t in stamps ensures t in g.nodes { assert t in Elems(stamps); }
    EmptyExact(g);
    AvailableIsReady(g, TState({}, {}), stamps);
    var s := CompleteAll(g, TState({}, {}), stamps);
    assert s.completed == ran + Bypass(g, ran);
    var r :| r in ran;
    SinkBelow(g, source, sink, r);
    SchedulableIff(g, source, sink, s);
  }

  /** For unordered tasks `ran` such a path is there exactly when an edge jumps from above `ran` to below it. */
  lemma BypassSchedulableIff(g: Graph, source: Task, sink: Task, ran: set<Task>, stamps: seq<Task>)
    requires Built(g, source, sink) && ran != {} && ran <= g.nodes && sink !in ran && Antichain(g, ran)
    requires Elems(stamps) == ran + Bypass(g, ran)
    ensures forall t :: t in stamps ==> t in g.nodes
    ensures Schedulable(g, CompleteAll(g, TState({}, {}), stamps), sink)
            <==> !exists a, d :: Crossing(g, ran, a, d)
  {
    StampedSchedulableIff(g, source, sink, ran, stamps);
    if a, d :| Crossing(g, ran, a, d) {
      AntichainApartAbove(g, ran, a);
      AntichainApartBelow(g, ran, d);
      CrossingIsOpenLine(g, source, sink, ran, a, d);
    } else if OpenLine(g, ran + Bypass(g, ran), source, sink) {
      var r :| r in ran;
      SinkBelow(g, source, sink, r);
      OpenLineCrosses(g, source, sink, ran, sink);
    }
  }

  lemma SourceNotBelow(g: Graph, source: Task, sink: Task, ran: set<Task>)
    requires Built(g, source, sink)
    ensures source !in DescOf(g, ran)
  {
    assert Root(g, source);
    if r :| r in ran && source in Desc(g, r) {
      LastStep(g, r, source);
    }
  }

  /** An uncompleted path from the source into the tasks below `ran` jumps there from above `ran`. */
  lemma {:induction false} OpenLineCrosses(g: Graph, source: Task, sink: Task, ran: set<Task>, x: Task)
    requires Built(g, source, sink) && x in DescOf(g, ran) && OpenLine(g, ran + Bypass(g, ran), source, x)
    ensures exists a, d :: Crossing(g, ran, a, d)
    decreases Anc(g, x)
  {
    OpenLineEnds(g, ran + Bypass(g, ran), source, x);
    SourceNotBelow(g, source, sink, ran);
    var u :| u in g.up[x] && OpenLine(g, ran + Bypass(g, ran), source, u);
    OpenLineEnds(g, ran + Bypass(g, ran), source, u);
    if u in DescOf(g, ran) {
      DescEdge(g, u, x);
      assert u !in Anc(g, u) && u in Anc(g, x);
      OpenLineCrosses(g, source, sink, ran, u);
    } else {
      assert Crossing(g, ran, u, x);
    }
  }

  /** A jump from above `ran` to below it, with none of `ran` above its start or below its end, lies on an
      uncompleted path from the source to the sink; `ran` need not be unordered. */
  lemma CrossingIsOpenLine(g: Graph, source: Task, sink: Task, ran: set<Task>, a: Task, d: Task)
    requires Built(g, source, sink) && Crossing(g, ran, a, d)
    requires Anc(g, a) + {a} !! ran && Desc(g, d) + {d} !! ran
    ensures OpenLine(g, ran + Bypass(g, ran), source, sink)
  {
    var completed := ran + Bypass(g, ran);
    AncSetUpClosed(g, ran, a);
    forall x | x in Anc(g, a) + {a} ensures x !in completed {
      if x != a { AncSetHoldsAncestors(g, ran, a, x); }
    }
    OpenDown(g, source, sink, completed, a);
    OpenLineStep(g, completed, source, a, d) by {
      DescSetDownClosed(g, ran, d);
    }
    DescSetDownClosed(g, ran, d);
    OpenOn(g, source, sink, completed, source, d);
  }

  lemma AncSetHoldsAncestors(g: Graph, ran: set<Task>, a: Task, x: Task)
    requires g.Valid() && a in AncOf(g, ran) && x in Anc(g, a)
    ensures x in AncOf(g, ran)
  {
    var r :| r in ran && a in Anc(g, r);
    ReachesFirst(g, a, r);
    assert r in Desc(g, a);
    DescTrans(g, a, r);
  }

  /** If nothing above a is completed, an uncompleted path leads from the source to a. */
  lemma {:induction false} OpenDown(g: Graph, source: Task, sink: Task, completed: set<Task>, a: Task)
    requires Built(g, source, sink) && a in g.nodes && Anc(g, a) + {a} !! completed
    ensures OpenLine(g, completed, source, a)
    decreases Anc(g, a)
  {
    if a == source {
      assert OpenPath(g, completed, [source]);
    } else {
      assert !Root(g, a);
      var u :| u in g.up[a];
      DescEdge(g, u, a);
      assert u !in Anc(g, u) && u in Anc(g, a);
      OpenDown(g, source, sink, completed, u);
      OpenLineStep(g, completed, source, u, a);
    }
  }

  /** With such a jump no schedule reaches the sink. */
  lemma CrossingBlocks(g: Graph, source: Task, sink: Task, ran: set<Task>, a: Task, d: Task, s: TState, run: seq<Task>)
    requires Built(g, source, sink) && Crossing(g, ran, a, d)
    requires Anc(g, a) + {a} !! ran && Desc(g, d) + {d} !! ran
    requires Exact(g, s) && s.completed == ran + Bypass(g, ran) && Runs(g, s, run)
    ensures sink !in run
  {
    CrossingIsOpenLine(g, source, sink, ran, a, d);
    OpenLineBlocks(g, source, sink, s, run);
  }

  lemma AntichainApartAbove(g: Graph, ran: set<Task>, a: Task)
    requires g.Valid() && Antichain(g, ran) && a in AncOf(g, ran)
    ensures Anc(g, a) + {a} !! ran
  {
    forall b | b in Anc(g, a) + {a} ensures b !in ran {
      if b != a { AncSetHoldsAncestors(g, ran, a, b); }
      var r :| r in ran && b in Anc(g, r);
      ReachesFirst(g, b, r);
      assert r in Desc(g, b);
    }
  }

  lemma AntichainApartBelow(g: Graph, ran: set<Task>, d: Task)
    requires g.Valid() && Antichain(g, ran) && d in DescOf(g, ran)
    ensures Desc(g, d) + {d} !! ran
  {
    DescSetDownClosed(g, ran, d);
    forall b | b in Desc(g, d) + {d} ensures b !in ran {
      var r :| r in ran && b in Desc(g, r);
    }
  }

  lemma LastStep(g: Graph, d: Task, b: Task)
    requires g.Valid() && b in Desc(g, d)
    ensures exists u :: u in g.up[b] && (u == d || u in Desc(g, d))
  {
    DescTrans(g, d, b);
    AncUnfold(g, b);
    if d !in g.up[b] {
      var u :| u in g.up[b] && d in Anc(g, u);
      ReachesFirst(g, d, u);
      assert u in Desc(g, d);
    }
  }

  method BypassOf(dag: DAG, ran: set<Task>) returns (bypass: set<Task>)
    requires dag.View().Valid() && Connected(dag.View(), dag.inTask, dag.outTask) && dag.Fresh()
    requires Acyclic(dag.View()) && dag.taskSet == dag.View().nodes && ran <= dag.View().nodes
    modifies dag`downstreamTasks, dag`upstreamTasks
    ensures dag.Fresh() && bypass == Bypass(dag.View(), ran)
  {
    ghost var g := dag.View();
    AcyclicReverse(g);
    forall t | t in g.nodes ensures Placed(g, t, dag.inTask, dag.outTask) {
      ConnectedLeads(g, dag.inTask, dag.outTask, t);
    }
    var found := dag.GetBypassTasks(ran);
    return found.value;
  }

  /** The bypass half of `_context_postprocess` for one new context. */
  method StampBypass(dag: DAG, st: TaskState, running: set<Task>)
    requires dag.View().Valid() && Connected(dag.View(), dag.inTask, dag.outTask) && dag.Fresh()
    requires Acyclic(dag.View()) && dag.taskSet == dag.View().nodes && running <= dag.View().nodes
    requires !st.skipComplete && Exact(dag.View(), st.View())
    modifies st, dag`downstreamTasks, dag`upstreamTasks
    ensures dag.Fresh() && !st.skipComplete && Exact(dag.View(), st.View())
    ensures forall t :: t in st.completedTasks <==>
      || t in old(st.completedTasks)
      || (t in dag.View().nodes && forall r :: r in old(st.completedTasks) * running ==> Unordered(dag.View(), t, r))
  {
    hide Desc, DescOf, AncOf, Unordered, Bypass, Connected, Acyclic;
    ghost var ran := st.completedTasks * running;
    BypassAll(dag.View(), ran);
    var bypass := BypassOf(dag, st.completedTasks * running);
    CompleteSet(dag, st, bypass);
  }
}
