/** Building the DAG and collecting the memoised closures (shutils/dag/dag.py). */
module Dags {
  import opened Options
  import opened Graphs

  ghost predicate Edge(g: Graph, x: Task, y: Task) {
    x in g.down && y in g.down[x]
  }

  /** `h` is `g` with the nodes `ns` and the edges `es` added, and nothing else changed. */
  ghost predicate Added(g: Graph, h: Graph, ns: set<Task>, es: set<(Task, Task)>) {
    && g.Valid() && h.Valid()
    && h.nodes == g.nodes + ns
    && (forall x, y :: Edge(h, x, y) <==> Edge(g, x, y) || (x, y) in es)
  }

  /** A graph is determined by its nodes and its edges. */
  lemma AddedUnique(g: Graph, h: Graph, k: Graph, ns: set<Task>, es: set<(Task, Task)>)
    requires Added(g, h, ns, es) && Added(g, k, ns, es)
    ensures h == k
  {
    forall x | x in h.nodes
      ensures h.down[x] == k.down[x] && h.up[x] == k.up[x]
    {
      forall y ensures y in h.down[x] <==> y in k.down[x] {
        assert Edge(h, x, y) <==> Edge(k, x, y);
      }
      forall y ensures y in h.up[x] <==> y in k.up[x] {
        assert Edge(h, y, x) <==> Edge(k, y, x);
      }
    }
  }

  lemma AddedTwice(g: Graph, h: Graph, k: Graph, ns: set<Task>, es: set<(Task, Task)>, ms: set<Task>, fs: set<(Task, Task)>)
    requires Added(g, h, ns, es) && Added(h, k, ms, fs)
    ensures Added(g, k, ns + ms, es + fs)
  {
  }

  lemma EdgeAdded(g: Graph, x: Task, y: Task)
    requires g.Valid() && x in g.nodes && y in g.nodes
    ensures Added(g, Graph(g.nodes, g.up[y := g.up[y] + {x}], g.down[x := g.down[x] + {y}]), {}, {(x, y)})
  {
    var h := Graph(g.nodes, g.up[y := g.up[y] + {x}], g.down[x := g.down[x] + {y}]);
    forall a, b ensures Edge(h, a, b) <==> Edge(g, a, b) || (a, b) in {(x, y)} {
      assert a != x ==> (Edge(h, a, b) <==> Edge(g, a, b));
    }
  }

  lemma NoUpstream(g: Graph, x: Task)
    requires g.Valid() && x in g.nodes && forall u :: !Edge(g, u, x)
    ensures g.up[x] == {}
  {
    forall u ensures u !in g.up[x] { assert !Edge(g, u, x); }
  }

  lemma NoDownstream(g: Graph, x: Task)
    requires g.Valid() && x in g.nodes && forall d :: !Edge(g, x, d)
    ensures g.down[x] == {}
  {
    forall d ensures d !in g.down[x] { assert !Edge(g, x, d); }
  }

  /** The edges `add_task(task, l)` asks for. */
  function EdgesInto(l: seq<Task>, task: Task): set<(Task, Task)> {
    set d | d in Elems(l) :: (d, task)
  }

  lemma ElemsSnoc(l: seq<Task>, i: nat, task: Task)
    requires i < |l|
    ensures Elems(l[..i + 1]) == Elems(l[..i]) + {l[i]}
    ensures EdgesInto(l[..i + 1], task) == EdgesInto(l[..i], task) + {(l[i], task)}
  {
    assert l[..i + 1] == l[..i] + [l[i]];
  }

  lemma ElemsOne(d: Task, task: Task)
    ensures Elems([d]) == {d} && EdgesInto([d], task) == {(d, task)}
  {
  }

  /** After `add_task` only a task added without dependencies can have gained an empty upstream set. */
  lemma RootsAreStarts(g: Graph, h: Graph, task: Task, l: seq<Task>)
    requires Added(g, h, {task} + Elems(l), EdgesInto(l, task))
    ensures forall t :: t in h.nodes && h.up[t] == {} && t in g.nodes ==> g.up[t] == {}
    ensures l != [] ==> h.up[task] != {}
  {
    forall t | t in h.nodes && h.up[t] == {} && t in g.nodes
      ensures g.up[t] == {}
    {
      forall u ensures !Edge(g, u, t) {
        assert Edge(g, u, t) ==> Edge(h, u, t);
      }
      NoUpstream(g, t);
    }
    if l != [] {
      assert l[0] in Elems(l) && (l[0], task) in EdgesInto(l, task) && Edge(h, l[0], task);
    }
  }

  // ---------------------------------------------------------------- what build adds

  function SourceEdges(source: Task, start: set<Task>): set<(Task, Task)> {
    set s | s in start :: (source, s)
  }

  function SinkEdges(ends: set<Task>, sink: Task): set<(Task, Task)> {
    set t | t in ends :: (t, sink)
  }

  /** Registered tasks without downstream tasks. */
  function Ends(g: Graph, tasks: set<Task>): set<Task> {
    set t | t in tasks && t in g.down && g.down[t] == {}
  }

  lemma EndsStep(g: Graph, seen: set<Task>, task: Task)
    requires task in g.down
    ensures Ends(g, seen + {task}) == Ends(g, seen) + (if g.down[task] == {} then {task} else {})
  {
  }

  lemma SourceEdgesStep(g: Graph, h: Graph, k: Graph, done: set<Task>, source: Task, task: Task)
    requires Added(g, h, {}, SourceEdges(source, done)) && task in g.nodes && source in g.nodes
    requires Added(h, k, {task} + Elems([source]), EdgesInto([source], task))
    ensures Added(g, k, {}, SourceEdges(source, done + {task}))
  {
    ElemsOne(source, task);
    AddedTwice(g, h, k, {}, SourceEdges(source, done), {task} + {source}, {(source, task)});
    assert SourceEdges(source, done + {task}) == SourceEdges(source, done) + {(source, task)};
  }

  lemma SinkEdgesStep(g: Graph, h: Graph, k: Graph, ends: set<Task>, sink: Task, task: Task)
    requires Added(g, h, {}, SinkEdges(ends, sink)) && task in g.nodes && sink in g.nodes
    requires Added(h, k, {sink} + Elems([task]), EdgesInto([task], sink))
    ensures Added(g, k, {}, SinkEdges(ends + {task}, sink))
  {
    ElemsOne(task, sink);
    AddedTwice(g, h, k, {}, SinkEdges(ends, sink), {sink} + {task}, {(task, sink)});
    assert SinkEdges(ends + {task}, sink) == SinkEdges(ends, sink) + {(task, sink)};
  }

  /** Sink edges from other tasks leave the downstream set of a task alone. */
  lemma DownKept(g: Graph, h: Graph, ends: set<Task>, sink: Task, task: Task)
    requires Added(g, h, {}, SinkEdges(ends, sink)) && task in g.nodes && task !in ends
    ensures h.down[task] == g.down[task]
  {
    forall y ensures y in h.down[task] <==> y in g.down[task] {
      assert Edge(h, task, y) <==> Edge(g, task, y);
    }
  }

  /** What `build` does to the graph: source edges first, then the sink edges. */
  ghost predicate BuildStep(g: Graph, h: Graph, tasks: set<Task>, start: set<Task>, source: Task, sink: Task) {
    exists g1 ::
      && Added(g, g1, {}, SourceEdges(source, start))
      && Added(g1, h, {}, SinkEdges(Ends(g1, tasks), sink))
  }

  /** The source edges do not change which of the user's tasks have nothing downstream. */
  lemma EndsKept(g: Graph, h: Graph, tasks: set<Task>, start: set<Task>, source: Task)
    requires Added(g, h, {}, SourceEdges(source, start)) && tasks <= g.nodes
    ensures source !in tasks ==> Ends(h, tasks) == Ends(g, tasks)
  {
    if source !in tasks {
      forall t | t in tasks ensures g.down[t] == h.down[t] {
        forall d ensures d in g.down[t] <==> d in h.down[t] {
          assert Edge(h, t, d) <==> Edge(g, t, d);
        }
      }
    }
  }

  /** What the user hands to `build`: every dependency was itself added, and the
      sink was not used. The source may have been named as a dependency. */
  ghost predicate UserGraph(g: Graph, tasks: set<Task>, start: set<Task>, source: Task, sink: Task) {
    && g.Valid()
    && source != sink && source !in tasks && sink !in tasks
    && g.nodes == tasks + {source, sink}
    && start != {} && start <= tasks
    && g.up[source] == {} && g.up[sink] == {} && g.down[sink] == {}
    && (forall t {:trigger Root(g, t)} :: t in tasks && Root(g, t) ==> t in start)
  }

  /** Walking downstream from a task ends in a task without downstream tasks. */
  lemma {:induction false} TerminalBelow(g: Graph, x: Task) returns (t: Task)
    requires g.Valid() && Acyclic(g) && x in g.nodes
    ensures t in g.nodes && g.down[t] == {}
    ensures t == x || t in Desc(g, x)
    decreases Desc(g, x)
  {
    if g.down[x] == {} {
      t := x;
    } else {
      var d :| d in g.down[x];
      DescEdge(g, x, d);
      assert d !in Desc(g, d) && d in Desc(g, x);
      t := TerminalBelow(g, d);
    }
  }

  /** The shape of the built graph, edge by edge. */
  lemma BuildStepEdges(g: Graph, h: Graph, tasks: set<Task>, start: set<Task>, source: Task, sink: Task)
    requires UserGraph(g, tasks, start, source, sink) && BuildStep(g, h, tasks, start, source, sink)
    ensures h.Valid() && h.nodes == g.nodes
    ensures h.up[source] == {} && h.down[sink] == {}
    ensures forall x, y :: Edge(g, x, y) ==> Edge(h, x, y)
    ensures forall x, y :: Edge(h, x, y) && x != source && y != sink ==> Edge(g, x, y)
  {
    var g1 :| Added(g, g1, {}, SourceEdges(source, start)) && Added(g1, h, {}, SinkEdges(Ends(g1, tasks), sink));
    forall u ensures !Edge(h, u, source) && !Edge(h, sink, u) {
      assert !Edge(g, u, source) && !Edge(g1, u, source);
      assert !Edge(g, sink, u) && !Edge(g1, sink, u);
    }
    NoUpstream(h, source);
    NoDownstream(h, sink);
  }

  /** Every registered task ends up with an upstream and a downstream task. */
  lemma BuildStepConnects(g: Graph, h: Graph, tasks: set<Task>, start: set<Task>, source: Task, sink: Task)
    requires UserGraph(g, tasks, start, source, sink) && BuildStep(g, h, tasks, start, source, sink)
    ensures h.Valid() && h.nodes == g.nodes
    ensures forall t :: t in tasks ==> h.up[t] != {} && h.down[t] != {}
    ensures h.down[source] != {}
  {
    var g1 :| Added(g, g1, {}, SourceEdges(source, start)) && Added(g1, h, {}, SinkEdges(Ends(g1, tasks), sink));
    forall t | t in tasks
      ensures h.up[t] != {} && h.down[t] != {}
    {
      TaskConnects(g, g1, h, tasks, start, source, sink, t);
    }
    var s :| s in start;
    assert (source, s) in SourceEdges(source, start) && Edge(g1, source, s) && Edge(h, source, s);
  }

  lemma TaskConnects(g: Graph, g1: Graph, h: Graph, tasks: set<Task>, start: set<Task>, source: Task, sink: Task, t: Task)
    requires UserGraph(g, tasks, start, source, sink) && t in tasks
    requires Added(g, g1, {}, SourceEdges(source, start)) && Added(g1, h, {}, SinkEdges(Ends(g1, tasks), sink))
    ensures h.up[t] != {} && h.down[t] != {}
  {
    if Root(g, t) {
      assert (source, t) in SourceEdges(source, start) && Edge(g1, source, t) && Edge(h, source, t);
    } else {
      var u :| u in g.up[t];
      assert Edge(g, u, t) && Edge(g1, u, t) && Edge(h, u, t);
    }
    if g1.down[t] == {} {
      assert (t, sink) in SinkEdges(Ends(g1, tasks), sink) && Edge(h, t, sink);
    } else {
      var d :| d in g1.down[t];
      assert Edge(g1, t, d) && Edge(h, t, d);
    }
  }

  /** Edges out of the source and into the sink close no cycle. */
  lemma CycleIsOld(g: Graph, h: Graph, source: Task, sink: Task, x: Task)
    requires g.Valid() && h.Valid() && h.nodes == g.nodes
    requires source in h.nodes && sink in h.nodes && h.up[source] == {} && h.down[sink] == {}
    requires forall x, y :: Edge(h, x, y) && x != source && y != sink ==> Edge(g, x, y)
    requires Reaches(h, x, x)
    ensures Reaches(g, x, x)
  {
    var p :| IsPath(h, p) && |p| >= 2 && p[0] == x && p[|p| - 1] == x;
    var n := |p| - 1;
    forall i | 0 <= i <= n
      ensures p[i] != source && p[i] != sink
    {
      var k := if i == 0 then n else i;
      var l := k - 1;
      assert p[k] in h.down[p[l]] && p[l] in h.up[p[k]];
      var m := if i == n then 0 else i;
      var m' := m + 1;
      assert p[m'] in h.down[p[m]];
    }
    forall i, j | 0 <= i < n && j == i + 1
      ensures p[j] in g.down[p[i]]
    {
      assert p[j] in h.down[p[i]] && Edge(h, p[i], p[j]);
    }
    assert IsPath(g, p);
  }

  lemma PathExtends(g: Graph, h: Graph, x: Task, y: Task)
    requires g.Valid() && h.Valid() && h.nodes == g.nodes
    requires forall x, y :: Edge(g, x, y) ==> Edge(h, x, y)
    requires Reaches(g, x, y)
    ensures Reaches(h, x, y)
  {
    var p :| IsPath(g, p) && |p| >= 2 && p[0] == x && p[|p| - 1] == y;
    forall i, j | 0 <= i < |p| - 1 && j == i + 1
      ensures p[j] in h.down[p[i]]
    {
      assert Edge(g, p[i], p[j]);
    }
    assert IsPath(h, p);
  }

  /** `build` leaves a graph in which every task lies between source and sink
      exactly when the user's graph had no cycle. */
  lemma BuildIffAcyclic(g: Graph, h: Graph, tasks: set<Task>, start: set<Task>, source: Task, sink: Task)
    requires UserGraph(g, tasks, start, source, sink) && BuildStep(g, h, tasks, start, source, sink)
    ensures Built(h, source, sink) <==> Acyclic(g)
  {
    if Acyclic(g) {
      AcyclicBuilds(g, h, tasks, start, source, sink);
    }
    if Built(h, source, sink) {
      BuildStepEdges(g, h, tasks, start, source, sink);
      AcyclicBefore(g, h);
    }
  }

  lemma AcyclicBuilds(g: Graph, h: Graph, tasks: set<Task>, start: set<Task>, source: Task, sink: Task)
    requires UserGraph(g, tasks, start, source, sink) && BuildStep(g, h, tasks, start, source, sink)
    requires Acyclic(g)
    ensures Built(h, source, sink)
  {
    BuildStepEdges(g, h, tasks, start, source, sink);
    BuildStepConnects(g, h, tasks, start, source, sink);
    AcyclicAfter(g, h, source, sink);
    SinkHasUpstream(h, tasks, source, sink);
    IsFramed(h, tasks, source, sink);
  }

  lemma IsFramed(h: Graph, tasks: set<Task>, source: Task, sink: Task)
    requires h.Valid() && h.nodes == tasks + {source, sink} && source != sink
    requires h.up[source] == {} && h.down[sink] == {} && h.down[source] != {} && h.up[sink] != {}
    requires forall t :: t in tasks ==> h.up[t] != {} && h.down[t] != {}
    ensures Framed(h, source, sink)
  {
  }

  lemma AcyclicAfter(g: Graph, h: Graph, source: Task, sink: Task)
    requires g.Valid() && h.Valid() && h.nodes == g.nodes && Acyclic(g)
    requires source in h.nodes && sink in h.nodes && h.up[source] == {} && h.down[sink] == {}
    requires forall x, y :: Edge(h, x, y) && x != source && y != sink ==> Edge(g, x, y)
    ensures Acyclic(h)
  {
    forall x | x in h.nodes
      ensures !Reaches(h, x, x)
    {
      assert x !in Desc(g, x);
      if Reaches(h, x, x) {
        CycleIsOld(g, h, source, sink, x);
      }
    }
  }

  lemma AcyclicBefore(g: Graph, h: Graph)
    requires g.Valid() && h.Valid() && h.nodes == g.nodes && Acyclic(h)
    requires forall x, y :: Edge(g, x, y) ==> Edge(h, x, y)
    ensures Acyclic(g)
  {
    forall x | x in g.nodes
      ensures !Reaches(g, x, x)
    {
      assert x !in Desc(h, x);
      if Reaches(g, x, x) {
        PathExtends(g, h, x, x);
      }
    }
  }

  lemma SinkHasUpstream(h: Graph, tasks: set<Task>, source: Task, sink: Task)
    requires h.Valid() && Acyclic(h) && h.nodes == tasks + {source, sink} && source != sink
    requires h.down[source] != {}
    requires forall t :: t in tasks ==> h.down[t] != {}
    ensures h.up[sink] != {}
  {
    var t := TerminalBelow(h, source);
    assert t == sink;
    AncUnfold(h, sink);
    DescTrans(h, source, sink);
  }

  /** A second `build` puts the sink upstream of itself. */
  lemma RebuildLoopsSink(g: Graph, h: Graph, tasks: set<Task>, start: set<Task>, source: Task, sink: Task)
    requires Built(g, source, sink) && sink in tasks
    requires BuildStep(g, h, tasks, start, source, sink)
    ensures h.Valid() && sink in h.down[sink] && !Acyclic(h)
  {
    var g1 :| Added(g, g1, {}, SourceEdges(source, start)) && Added(g1, h, {}, SinkEdges(Ends(g1, tasks), sink));
    assert Leaf(g, sink);
    assert g1.down[sink] == {} by {
      forall y ensures y !in g1.down[sink] {
        assert !Edge(g, sink, y) && !Edge(g1, sink, y);
      }
    }
    assert (sink, sink) in SinkEdges(Ends(g1, tasks), sink) && Edge(h, sink, sink);
    ReachesEdge(h, sink, sink);
    assert sink in Desc(h, sink);
  }

  // ---------------------------------------------------------------- the collectors

  /** A closure map in progress: each entry holds exactly the proper descendants of
      its task, which lies on no cycle and whose descendants all have entries. */
  ghost predicate CacheOk(g: Graph, cache: map<Task, set<Task>>)
    requires g.Valid()
  {
    forall k :: k in cache ==>
      k in g.nodes && cache[k] == Desc(g, k) && k !in Desc(g, k) && Desc(g, k) <= cache.Keys
  }

  /** Between two moments of the collection every task whose last downstream entry
      appeared got its own entry. */
  ghost predicate Caught(g: Graph, before: set<Task>, after: set<Task>)
    requires g.Valid()
  {
    forall w :: w in g.nodes && g.down[w] <= after && !(g.down[w] <= before) ==> w in after
  }

  /** The same while the entry of cur is being passed on to the tasks above it, `todo` of which are left. */
  ghost predicate CaughtBut(g: Graph, before: set<Task>, after: set<Task>, cur: Task, todo: set<Task>)
    requires g.Valid()
  {
    forall w :: w in g.nodes && g.down[w] <= after && !(g.down[w] <= before) ==> w in after || (cur in g.down[w] && w in todo)
  }

  /** The entries made in between belong to cur or to tasks with downstream tasks. */
  ghost predicate MadeAbove(g: Graph, before: set<Task>, after: set<Task>, cur: Task)
    requires g.Valid()
  {
    forall w :: w in after && w !in before ==> w == cur || (w in g.nodes && g.down[w] != {})
  }

  lemma CaughtPassedOn(g: Graph, before: set<Task>, mid: set<Task>, after: set<Task>, cur: Task, u: Task, todo: set<Task>)
    requires g.Valid() && cur in g.nodes && u in g.up[cur] && mid <= after
    requires CaughtBut(g, before, mid, cur, todo + {u}) && MadeAbove(g, before, mid, cur)
    requires Caught(g, mid, after) && MadeAbove(g, mid, after, u) && (g.down[u] <= mid ==> u in after)
    ensures CaughtBut(g, before, after, cur, todo) && MadeAbove(g, before, after, cur)
  {
  }

  /** The collection climbs; it ends as cur lies on no cycle. */
  lemma HigherUp(g: Graph, cur: Task, u: Task)
    requires g.Valid() && cur in g.nodes && u in g.up[cur] && cur !in Desc(g, cur)
    ensures u in g.nodes && g.nodes - Desc(g, u) < g.nodes - Desc(g, cur)
  {
    DescEdge(g, u, cur);
    assert cur in g.nodes - Desc(g, cur) && cur !in g.nodes - Desc(g, u);
  }

  lemma CaughtAll(g: Graph, before: set<Task>, after: set<Task>, cur: Task)
    requires g.Valid() && CaughtBut(g, before, after, cur, {})
    ensures Caught(g, before, after)
  {
  }

  lemma ReverseValid(g: Graph)
    requires g.Valid()
    ensures g.Reverse().Valid()
  {
  }

  /** cur has its entry, which is being passed on to the tasks above it, `todo` of which are left. */
  ghost predicate Passing(g: Graph, before: set<Task>, cache: map<Task, set<Task>>, cur: Task, todo: set<Task>)
    requires g.Valid()
  {
    && cur in g.nodes && todo <= g.up[cur] && cur !in Desc(g, cur) && before + {cur} <= cache.Keys
    && CacheOk(g, cache) && CaughtBut(g, before, cache.Keys, cur, todo) && MadeAbove(g, before, cache.Keys, cur)
  }

  lemma PassingStarts(g: Graph, cache: map<Task, set<Task>>, cur: Task, s: set<Task>)
    requires g.Valid() && cur in g.nodes && cur !in Desc(g, cur) && CacheOk(g, cache[cur := s])
    ensures Passing(g, cache.Keys, cache[cur := s], cur, g.up[cur])
  {
    hide CacheOk, Desc;
    assert cache[cur := s].Keys == cache.Keys + {cur};
  }

  lemma PassingTo(g: Graph, before: set<Task>, cache: map<Task, set<Task>>, cur: Task, u: Task, todo: set<Task>)
    requires g.Valid() && Passing(g, before, cache, cur, todo) && u in todo
    ensures u in g.nodes && CacheOk(g, cache) && g.nodes - Desc(g, u) < g.nodes - Desc(g, cur)
  {
    HigherUp(g, cur, u);
  }

  lemma PassedTo(g: Graph, before: set<Task>, mid: map<Task, set<Task>>, cache: map<Task, set<Task>>, cur: Task, u: Task,
                 todo: set<Task>)
    requires g.Valid() && u in g.nodes && u !in todo && Passing(g, before, mid, cur, todo + {u}) && CacheOk(g, cache)
    requires mid.Keys <= cache.Keys && (g.down[u] <= mid.Keys ==> u in cache)
    requires Caught(g, mid.Keys, cache.Keys) && MadeAbove(g, mid.Keys, cache.Keys, u)
    ensures Passing(g, before, cache, cur, todo)
  {
    hide CacheOk, Desc;
    CaughtPassedOn(g, before, mid.Keys, cache.Keys, cur, u, todo);
  }

  lemma PassingEnds(g: Graph, before: set<Task>, cache: map<Task, set<Task>>, cur: Task)
    requires g.Valid() && Passing(g, before, cache, cur, {})
    ensures CacheOk(g, cache) && before + {cur} <= cache.Keys
    ensures Caught(g, before, cache.Keys) && MadeAbove(g, before, cache.Keys, cur)
  {
    CaughtAll(g, before, cache.Keys, cur);
  }

  /** A finished closure map, collected upwards from `end`: no task is left whose downstream tasks all have entries,
      but those without downstream tasks, of which only `end` has one. */
  ghost predicate Collected(g: Graph, cache: map<Task, set<Task>>, end: Task)
    requires g.Valid()
  {
    && CacheOk(g, cache)
    && (forall w :: w in g.nodes && g.down[w] <= cache.Keys && (w == end || g.down[w] != {}) ==> w in cache)
    && (forall w :: w in cache && g.down[w] == {} ==> w == end)
  }

  /** x lies on a cycle or above one. */
  ghost predicate AboveCycle(g: Graph, x: Task)
    requires g.Valid()
  {
    x in Desc(g, x) || exists y :: y in Desc(g, x) && y in Desc(g, y)
  }

  /** All ways down from x end, and they end at `end`. */
  ghost predicate LeadsTo(g: Graph, x: Task, end: Task)
    requires g.Valid()
  {
    !AboveCycle(g, x) && forall y {:trigger Leaf(g, y)} :: (y == x || y in Desc(g, x)) && Leaf(g, y) ==> y == end
  }

  lemma {:induction false} CollectedBelow(g: Graph, cache: map<Task, set<Task>>, x: Task, end: Task)
    requires g.Valid() && Collected(g, cache, end) && x in g.nodes && LeadsTo(g, x, end)
    ensures x in cache
    decreases Desc(g, x)
  {
    if g.down[x] == {} {
      assert Leaf(g, x);
    }
    forall d | d in g.down[x]
      ensures d in cache
    {
      DescEdge(g, x, d);
      CollectedBelow(g, cache, d, end);
    }
  }

  /** A finished closure map has an entry for exactly the tasks all of whose ways down end at `end`. */
  lemma CollectedIff(g: Graph, cache: map<Task, set<Task>>, x: Task, end: Task)
    requires g.Valid() && Collected(g, cache, end)
    ensures x in cache <==> x in g.nodes && LeadsTo(g, x, end)
  {
    if x in g.nodes && LeadsTo(g, x, end) {
      CollectedBelow(g, cache, x, end);
    }
  }

  /** The collectors cover every task exactly when the graph has no cycle and no other end. */
  lemma CoversAllIffAcyclic(g: Graph, cache: map<Task, set<Task>>, end: Task)
    requires g.Valid() && Collected(g, cache, end)
    ensures cache.Keys <= g.nodes
    ensures cache.Keys == g.nodes <==> Acyclic(g) && forall y {:trigger Leaf(g, y)} :: y in g.nodes && Leaf(g, y) ==> y == end
  {
    if Acyclic(g) && forall y {:trigger Leaf(g, y)} :: y in g.nodes && Leaf(g, y) ==> y == end {
      forall x | x in g.nodes
        ensures x in cache
      {
        CollectedBelow(g, cache, x, end);
      }
    }
    if cache.Keys == g.nodes {
      forall y {:trigger Leaf(g, y)} | y in g.nodes && Leaf(g, y) ensures y == end {
        assert y in cache;
      }
    }
  }

  /** Adding an entry for a task whose downstream tasks all have entries. */
  lemma CacheOkAdd(g: Graph, cache: map<Task, set<Task>>, x: Task, s: set<Task>)
    requires g.Valid() && CacheOk(g, cache) && x in g.nodes && g.down[x] <= cache.Keys
    requires s == g.down[x] + (set d, y | d in g.down[x] && y in cache[d] :: y)
    ensures CacheOk(g, cache[x := s]) && x !in Desc(g, x)
  {
    DescUnfold(g, x);
    EntriesJoin(g, cache, g.down[x]);
    hide Desc, DescOf;
  }

  lemma EntriesJoin(g: Graph, cache: map<Task, set<Task>>, ds: set<Task>)
    requires g.Valid() && CacheOk(g, cache) && ds <= cache.Keys
    ensures DescOf(g, ds) == (set d, y | d in ds && y in cache[d] :: y) <= cache.Keys
  {
    hide Desc;
  }

  /** No task but the sink ends the graph and no task but the source begins it. */
  ghost predicate Connected(g: Graph, source: Task, sink: Task)
    requires g.Valid()
  {
    && source in g.nodes && sink in g.nodes
    && (forall x {:trigger Root(g, x)} :: Root(g, x) ==> x == source)
    && (forall x {:trigger Leaf(g, x)} :: Leaf(g, x) ==> x == sink)
    && Leaf(g, sink) && Root(g, source)
  }

  /** In a graph connected that way every task leads to the sink unless it is above a cycle. */
  lemma ConnectedLeads(g: Graph, source: Task, sink: Task, x: Task)
    requires g.Valid() && Connected(g, source, sink) && x in g.nodes
    ensures LeadsTo(g, x, sink) <==> !AboveCycle(g, x)
    ensures g.Reverse().Valid() && (LeadsTo(g.Reverse(), x, source) <==> !AboveCycle(g.Reverse(), x))
  {
    forall y {:trigger Leaf(g.Reverse(), y)} | Leaf(g.Reverse(), y) ensures y == source {
      assert Root(g, y);
    }
  }

  lemma CollectedIsOk(g: Graph, cache: map<Task, set<Task>>, end: Task)
    requires g.Valid() && Collected(g, cache, end)
    ensures CacheOk(g, cache)
  {
  }

  /** t has a place in both closure maps. */
  ghost predicate Placed(g: Graph, t: Task, source: Task, sink: Task)
    requires g.Valid()
  {
    t in g.nodes && LeadsTo(g, t, sink) && g.Reverse().Valid() && LeadsTo(g.Reverse(), t, source)
  }

  /** The union of the entries of `ts`, given that each has one. */
  function Union(cache: map<Task, set<Task>>, ts: set<Task>): (r: set<Task>)
    requires ts <= cache.Keys
  {
    set t, y | t in ts && y in cache[t] :: y
  }

  lemma UnionIsDescOf(g: Graph, cache: map<Task, set<Task>>, ts: set<Task>)
    requires g.Valid() && CacheOk(g, cache) && ts <= cache.Keys
    ensures Union(cache, ts) == DescOf(g, ts)
  {
  }

  lemma AncOfIsDescOfReverse(g: Graph, ts: set<Task>)
    requires g.Valid()
    ensures g.Reverse().Valid() && AncOf(g, ts) == DescOf(g.Reverse(), ts)
  {
    forall t ensures Anc(g, t) == Desc(g.Reverse(), t) { AncIsDescOfReverse(g, t); }
  }

  /** The first half of the collectors: the given tasks and all their entries joined, or none if an entry is missing. */
  method JoinEntries(ds: set<Task>, cache: map<Task, set<Task>>) returns (r: Option<set<Task>>)
    ensures r.None? <==> !(ds <= cache.Keys)
    ensures r.Some? ==> r.value == ds + (set d, y | d in ds && y in cache[d] :: y)
  {
    var todo, joined := ds, {};
    while todo != {}
      invariant todo <= ds && ds - todo <= cache.Keys
      invariant joined == (ds - todo) + (set d, y | d in ds - todo && y in cache[d] :: y)
    {
      var d :| d in todo;
      if d !in cache {
        return None;
      }
      todo, joined := todo - {d}, joined + {d} + cache[d];
    }
    return Some(joined);
  }

  class DAG {
    const inTask: Task
    const outTask: Task
    var tasks: set<Task>
    var startTasks: set<Task>
    var endTasks: set<Task>
    var taskSet: set<Task>
    /** The two edge sets of every task object met so far. */
    var up: map<Task, set<Task>>
    var down: map<Task, set<Task>>
    /** The memoised closures, filled on the first query. */
    var downstreamTasks: map<Task, set<Task>>
    var upstreamTasks: map<Task, set<Task>>

    ghost function View(): Graph
      reads this`up, this`down
    {
      Graph(up.Keys, up, down)
    }

    ghost predicate Valid()
      reads this
    {
      && View().Valid()
      && inTask != outTask
      && tasks + {inTask, outTask} <= up.Keys
      && startTasks <= tasks
      && (forall t :: t in tasks && t != inTask && up[t] == {} ==> t in startTasks)
    }

    /** The closure maps are either empty or belong to the present graph. */
    ghost predicate Fresh()
      requires View().Valid()
      reads this
    {
      && (downstreamTasks == map[] || Collected(View(), downstreamTasks, outTask))
      && (upstreamTasks == map[] || Collected(View().Reverse(), upstreamTasks, inTask))
    }

    constructor ()
      ensures Valid() && Fresh()
      ensures tasks == startTasks == endTasks == taskSet == {}
      ensures inTask == Task("#SourceNode") && outTask == Task("#SinkNode")
      ensures View() == Graph({inTask, outTask}, map[inTask := {}, outTask := {}], map[inTask := {}, outTask := {}])
      ensures downstreamTasks == upstreamTasks == map[]
    {
      inTask, outTask := Task("#SourceNode"), Task("#SinkNode");
      tasks, startTasks, endTasks, taskSet := {}, {}, {}, {};
      up := map[Task("#SourceNode") := {}, Task("#SinkNode") := {}];
      down := map[Task("#SourceNode") := {}, Task("#SinkNode") := {}];
      downstreamTasks, upstreamTasks := map[], map[];
    }

    /** `TaskBase.add_upstream`: both edge sets change together. */
    method AddUpstream(task: Task, dependency: Task)
      requires View().Valid() && task in up
      modifies this`up, this`down
      ensures Added(old(View()), View(), {dependency}, {(dependency, task)}) && View().Valid()
      ensures old(up.Keys) <= up.Keys
    {
      Touch(dependency);
      ghost var h := View();
      EdgeAdded(h, dependency, task);
      hide Added;
      up := up[task := up[task] + {dependency}];
      down := down[dependency := down[dependency] + {task}];
      AddedTwice(old(View()), h, View(), {dependency}, {}, {}, {(dependency, task)});
      assert {dependency} + {} == {dependency} && {} + {(dependency, task)} == {(dependency, task)};
    }

    /** A task object seen for the first time carries two empty edge sets. */
    method Touch(task: Task)
      requires View().Valid()
      modifies this`up, this`down
      ensures Added(old(View()), View(), {task}, {}) && task in up && View().Valid()
      ensures old(up.Keys) <= up.Keys
      ensures task in old(up) ==> View() == old(View())
      ensures task !in old(up) ==> up[task] == {} && down[task] == {}
      ensures forall t :: t in old(up) ==> up[t] == old(up)[t] && down[t] == old(down)[t]
    {
      if task !in up {
        up := up[task := {}];
        down := down[task := {}];
      }
    }

    method AddTask(task: Task, dependencies: seq<Task>)
      requires Valid()
      modifies this`up, this`down, this`tasks, this`startTasks
      ensures Valid()
      ensures Added(old(View()), View(), {task} + Elems(dependencies), EdgesInto(dependencies, task))
      ensures tasks == old(tasks) + {task}
      ensures startTasks == old(startTasks) + (if dependencies == [] then {task} else {})
    {
      tasks := tasks + {task};
      AddAllUpstream(task, dependencies);
      if dependencies == [] {
        startTasks := startTasks + {task};
      }
      RootsAreStarts(old(View()), View(), task, dependencies);
    }

    /** The loop of `add_task` over the dependencies. */
    method AddAllUpstream(task: Task, dependencies: seq<Task>)
      requires View().Valid()
      modifies this`up, this`down
      ensures View().Valid() && old(up.Keys) <= up.Keys && task in up
      ensures Added(old(View()), View(), {task} + Elems(dependencies), EdgesInto(dependencies, task))
    {
      Touch(task);
      assert dependencies[..0] == [] && {task} + Elems([]) == {task} && EdgesInto([], task) == {};
      hide Added, EdgesInto, Elems;
      for i := 0 to |dependencies|
        invariant task in up && View().Valid() && old(up.Keys) <= up.Keys
        invariant Added(old(View()), View(), {task} + Elems(dependencies[..i]), EdgesInto(dependencies[..i], task))
      {
        ghost var h := View();
        AddUpstream(task, dependencies[i]);
        ElemsSnoc(dependencies, i, task);
        AddedTwice(old(View()), h, View(), {task} + Elems(dependencies[..i]), EdgesInto(dependencies[..i], task),
                   {dependencies[i]}, {(dependencies[i], task)});
        assert {task} + Elems(dependencies[..i]) + {dependencies[i]} == {task} + Elems(dependencies[..i + 1]);
      }
      assert dependencies[..|dependencies|] == dependencies;
    }

    /** `build`; the missing start task, an exception in the program, is `false` here. */
    method Build() returns (ok: bool)
      requires Valid()
      modifies this`up, this`down, this`tasks, this`startTasks, this`endTasks, this`taskSet
      ensures ok <==> old(startTasks) != {}
      ensures !ok ==> View() == old(View()) && tasks == old(tasks) && startTasks == old(startTasks)
                      && endTasks == old(endTasks) && taskSet == old(taskSet)
      ensures ok ==> BuildStep(old(View()), View(), old(tasks), old(startTasks), inTask, outTask)
      ensures ok ==> tasks == taskSet == old(tasks) + {inTask, outTask} && startTasks == old(startTasks)
      ensures ok && inTask !in old(tasks) ==> endTasks == old(endTasks) + Ends(old(View()), old(tasks))
      ensures View().Valid()
    {
      if startTasks == {} {
        return false;
      }
      ConnectAll();
      hide BuildStep;
      tasks := tasks + {inTask} + {outTask};
      taskSet := tasks;
      ok := true;
    }

    /** The two loops of `build`. */
    method ConnectAll()
      requires Valid()
      modifies this`up, this`down, this`tasks, this`startTasks, this`endTasks
      ensures BuildStep(old(View()), View(), old(tasks), old(startTasks), inTask, outTask)
      ensures View().Valid() && startTasks == old(startTasks)
      ensures old(tasks) <= tasks <= old(tasks) + {outTask}
      ensures inTask !in old(tasks) ==> endTasks == old(endTasks) + Ends(old(View()), old(tasks))
    {
      hide Added, Ends, SourceEdges, SinkEdges;
      ConnectSource();
      EndsKept(old(View()), View(), tasks, startTasks, inTask);
      ConnectSink();
    }

    /** First half of `build`. */
    method ConnectSource()
      requires Valid()
      modifies this`up, this`down, this`tasks, this`startTasks
      ensures Valid() && tasks == old(tasks) && startTasks == old(startTasks)
      ensures Added(old(View()), View(), {}, SourceEdges(inTask, startTasks))
    {
      ghost var done: set<Task> := {};
      var todo := startTasks;
      while todo != {}
        invariant tasks == old(tasks) && startTasks == old(startTasks)
        invariant todo + done == startTasks
        invariant Valid() && Added(old(View()), View(), {}, SourceEdges(inTask, done))
      {
        var task :| task in todo;
        todo := todo - {task};
        ghost var h := View();
        AddTask(task, [inTask]);
        SourceEdgesStep(old(View()), h, View(), done, inTask, task);
        done := done + {task};
      }
      assert done == startTasks;
    }

    /** One turn of the second loop of `build`. `g` is the graph before that loop and
        `ends` the end tasks found so far. */
    method ConnectIfEnd(task: Task, ghost g: Graph, ghost ends: set<Task>)
      requires Valid() && task in g.nodes && task !in ends && outTask in g.nodes
      requires Added(g, View(), {}, SinkEdges(ends, outTask))
      modifies this`up, this`down, this`tasks, this`startTasks, this`endTasks
      ensures Valid() && startTasks == old(startTasks) && old(tasks) <= tasks <= old(tasks) + {outTask}
      ensures endTasks == old(endTasks) + (if g.down[task] == {} then {task} else {})
      ensures Added(g, View(), {}, SinkEdges(ends + (if g.down[task] == {} then {task} else {}), outTask))
    {
      ghost var h := View();
      DownKept(g, h, ends, outTask, task);
      if down[task] == {} {
        endTasks := endTasks + {task};
        AddTask(outTask, [task]);
        SinkEdgesStep(g, h, View(), ends, outTask, task);
      } else {
        assert ends + {} == ends;
      }
    }

    /** Second half of `build`. */
    method ConnectSink()
      requires Valid()
      modifies this`up, this`down, this`tasks, this`startTasks, this`endTasks
      ensures View().Valid() && startTasks == old(startTasks)
      ensures old(tasks) <= tasks <= old(tasks) + {outTask}
      ensures endTasks == old(endTasks) + Ends(old(View()), old(tasks))
      ensures Added(old(View()), View(), {}, SinkEdges(Ends(old(View()), old(tasks)), outTask))
    {
      ghost var g := View();
      ghost var ends: set<Task> := {};
      ghost var seen: set<Task> := {};
      var list := tasks;
      assert tasks <= g.nodes && outTask in g.nodes;
      hide Added, Graph.Valid;
      while list != {}
        invariant list + seen == old(tasks) && list !! seen && ends <= seen
        invariant startTasks == old(startTasks) && old(tasks) <= tasks <= old(tasks) + {outTask}
        invariant ends == Ends(g, seen) && endTasks == old(endTasks) + ends
        invariant Valid() && Added(g, View(), {}, SinkEdges(ends, outTask))
      {
        var task :| task in list;
        list := list - {task};
        ConnectIfEnd(task, g, ends);
        seen := seen + {task};
        EndsStep(g, seen - {task}, task);
        ends := ends + (if g.down[task] == {} then {task} else {});
      }
      assert seen == old(tasks);
    }

    method CollectDownstream(cur: Task)
      requires View().Valid() && cur in View().nodes && CacheOk(View(), downstreamTasks)
      modifies this`downstreamTasks
      ensures CacheOk(View(), downstreamTasks)
      ensures old(downstreamTasks).Keys <= downstreamTasks.Keys
      ensures down[cur] <= old(downstreamTasks).Keys ==> cur in downstreamTasks
      ensures Caught(View(), old(downstreamTasks).Keys, downstreamTasks.Keys)
      ensures MadeAbove(View(), old(downstreamTasks).Keys, downstreamTasks.Keys, cur)
      decreases View().nodes - Desc(View(), cur), 1
    {
      ghost var g := View();
      assert g.Valid() && cur in g.nodes && g.nodes == up.Keys && g.up == up && g.down == down;
      ghost var before := downstreamTasks.Keys;
      var entry := JoinEntries(down[cur], downstreamTasks);
      if entry.None? {
        return;
      }
      CacheOkAdd(g, downstreamTasks, cur, entry.value);
      PassingStarts(g, downstreamTasks, cur, entry.value);
      hide CacheOk, MadeAbove, Caught, Desc, Passing, Graph.Valid;
      downstreamTasks := downstreamTasks[cur := entry.value];
      PassUp(cur, before);
      PassingEnds(g, before, downstreamTasks, cur);
    }

    /** The second half: the tasks on the other side of cur are collected. */
    method PassUp(cur: Task, ghost before: set<Task>)
      requires View().Valid() && cur in View().nodes && Passing(View(), before, downstreamTasks, cur, up[cur])
      modifies this`downstreamTasks
      ensures Passing(View(), before, downstreamTasks, cur, {})
      decreases View().nodes - Desc(View(), cur), 0
    {
      ghost var g := View();
      hide CacheOk, MadeAbove, Caught, Desc, Passing, Graph.Valid;
      assert g.nodes == up.Keys && g.up == up && g.down == down;
      var todo := up[cur];
      while todo != {}
        invariant g == View() && Passing(g, before, downstreamTasks, cur, todo)
      {
        var u :| u in todo;
        ghost var mid := downstreamTasks;
        PassingTo(g, before, mid, cur, u, todo);
        assert todo == todo - {u} + {u};
        todo := todo - {u};
        CollectDownstream(u);
        PassedTo(g, before, mid, downstreamTasks, cur, u, todo);
      }
    }



    method CollectUpstream(cur: Task)
      requires View().Valid() && cur in View().nodes && CacheOk(View().Reverse(), upstreamTasks)
      modifies this`upstreamTasks
      ensures CacheOk(View().Reverse(), upstreamTasks)
      ensures old(upstreamTasks).Keys <= upstreamTasks.Keys
      ensures up[cur] <= old(upstreamTasks).Keys ==> cur in upstreamTasks
      ensures Caught(View().Reverse(), old(upstreamTasks).Keys, upstreamTasks.Keys)
      ensures MadeAbove(View().Reverse(), old(upstreamTasks).Keys, upstreamTasks.Keys, cur)
      decreases View().nodes - Desc(View().Reverse(), cur), 1
    {
      ghost var g := View().Reverse();
      assert g.Valid() && cur in g.nodes && g.nodes == up.Keys && g.up == down && g.down == up;
      ghost var before := upstreamTasks.Keys;
      var entry := JoinEntries(up[cur], upstreamTasks);
      if entry.None? {
        return;
      }
      CacheOkAdd(g, upstreamTasks, cur, entry.value);
      PassingStarts(g, upstreamTasks, cur, entry.value);
      hide CacheOk, MadeAbove, Caught, Desc, Passing, Graph.Valid, Graph.Reverse;
      upstreamTasks := upstreamTasks[cur := entry.value];
      PassDown(cur, before);
      PassingEnds(g, before, upstreamTasks, cur);
    }

    /** The second half: the tasks on the other side of cur are collected. */
    method PassDown(cur: Task, ghost before: set<Task>)
      requires View().Valid() && cur in View().nodes && Passing(View().Reverse(), before, upstreamTasks, cur, down[cur])
      modifies this`upstreamTasks
      ensures Passing(View().Reverse(), before, upstreamTasks, cur, {})
      decreases View().nodes - Desc(View().Reverse(), cur), 0
    {
      ghost var g := View().Reverse();
      hide CacheOk, MadeAbove, Caught, Desc, Passing, Graph.Valid;
      assert g.nodes == up.Keys && g.up == down && g.down == up && cur in g.nodes;
      ReverseValid(View());
      hide Graph.Reverse;
      var todo := down[cur];
      while todo != {}
        invariant g == View().Reverse() && Passing(g, before, upstreamTasks, cur, todo)
      {
        var d :| d in todo;
        ghost var mid := upstreamTasks;
        PassingTo(g, before, mid, cur, d, todo);
        assert todo == todo - {d} + {d};
        todo := todo - {d};
        CollectUpstream(d);
        PassedTo(g, before, mid, upstreamTasks, cur, d, todo);
      }
    }



    /** The memo is filled on the first query, and on every later one as long as it is empty. */
    method FillDownstream()
      requires View().Valid() && outTask in up && Fresh()
      modifies this`downstreamTasks
      ensures Fresh() && Collected(View(), downstreamTasks, outTask)
    {
      if downstreamTasks == map[] {
        CollectDownstream(outTask);
      }
    }

    method FillUpstream()
      requires View().Valid() && inTask in up && Fresh()
      modifies this`upstreamTasks
      ensures Fresh() && Collected(View().Reverse(), upstreamTasks, inTask)
    {
      if upstreamTasks == map[] {
        CollectUpstream(inTask);
      }
    }

    /** `_get_all_downstream_tasks`; the KeyError of a task without an entry is None here. */
    method GetAllDownstreamTasks(ts: set<Task>, addSelf: bool) returns (r: Option<set<Task>>)
      requires View().Valid() && outTask in up && Fresh()
      modifies this`downstreamTasks
      ensures Fresh()
      ensures r.None? <==> exists t :: t in ts && (t !in View().nodes || !LeadsTo(View(), t, outTask))
      ensures r.Some? ==> r.value == DescOf(View(), ts) + (if addSelf then ts else {})
    {
      FillDownstream();
      hide LeadsTo, CacheOk, Collected;
      forall t ensures t in downstreamTasks <==> t in View().nodes && LeadsTo(View(), t, outTask) {
        CollectedIff(View(), downstreamTasks, t, outTask);
      }
      if !(ts <= downstreamTasks.Keys) {
        return None;
      }
      CollectedIsOk(View(), downstreamTasks, outTask);
      UnionIsDescOf(View(), downstreamTasks, ts);
      var result := Union(downstreamTasks, ts);
      if addSelf {
        result := result + ts;
      }
      r := Some(result);
    }

    /** `_get_all_upstream_tasks`, the same on the reversed edges. */
    method GetAllUpstreamTasks(ts: set<Task>, addSelf: bool) returns (r: Option<set<Task>>)
      requires View().Valid() && inTask in up && Fresh()
      modifies this`upstreamTasks
      ensures Fresh()
      ensures r.None? <==> exists t :: t in ts && (t !in View().nodes || !LeadsTo(View().Reverse(), t, inTask))
      ensures r.Some? ==> r.value == AncOf(View(), ts) + (if addSelf then ts else {})
    {
      ghost var h := View().Reverse();
      FillUpstream();
      hide LeadsTo, CacheOk, Collected;
      forall t ensures t in upstreamTasks <==> t in h.nodes && LeadsTo(h, t, inTask) {
        CollectedIff(h, upstreamTasks, t, inTask);
      }
      if !(ts <= upstreamTasks.Keys) {
        return None;
      }
      CollectedIsOk(h, upstreamTasks, inTask);
      UnionIsDescOf(h, upstreamTasks, ts);
      AncOfIsDescOfReverse(View(), ts);
      var result := Union(upstreamTasks, ts);
      if addSelf {
        result := result + ts;
      }
      r := Some(result);
    }

    /** `_get_bypass_tasks`: neither above, nor below, nor among the given tasks. */
    method GetBypassTasks(ts: set<Task>) returns (r: Option<set<Task>>)
      requires View().Valid() && inTask in up && outTask in up && Fresh()
      modifies this`downstreamTasks, this`upstreamTasks
      ensures Fresh()
      ensures r.None? <==> exists t :: t in ts && !Placed(View(), t, inTask, outTask)
      ensures r.Some? ==> r.value == taskSet - DescOf(View(), ts) - AncOf(View(), ts) - ts
    {
      var downs := GetAllDownstreamTasks(ts, false);
      if downs.None? {
        return None;
      }
      var ups := GetAllUpstreamTasks(ts, false);
      if ups.None? {
        return None;
      }
      r := Some(taskSet - downs.value - ups.value - ts);
    }
  }
}
