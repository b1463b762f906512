/** From the first `add_task` to the built DAG (shutils/dag/dag.py). */
module DagScripts {
  import opened Graphs
  import opened Dags

  /** One call of `add_task`. */
  datatype Adding = Adding(task: Task, dependencies: seq<Task>)

  const SOURCE := Task("#SourceNode")
  const SINK := Task("#SinkNode")

  function TasksOf(script: seq<Adding>): set<Task> {
    set a | a in script :: a.task
  }

  /** Tasks that were added without dependencies at least once. */
  function StartsOf(script: seq<Adding>): set<Task> {
    set a | a in script && a.dependencies == [] :: a.task
  }

  function NamesOf(script: seq<Adding>): set<Task> {
    if script == [] then {}
    else
      var last := script[|script| - 1];
      NamesOf(script[..|script| - 1]) + ({last.task} + Elems(last.dependencies))
  }

  function EdgesOf(script: seq<Adding>): set<(Task, Task)> {
    if script == [] then {}
    else
      var last := script[|script| - 1];
      EdgesOf(script[..|script| - 1]) + EdgesInto(last.dependencies, last.task)
  }

  /** The graph that a script describes. */
  function ScriptGraph(script: seq<Adding>): Graph {
    var nodes := NamesOf(script) + {SOURCE, SINK};
    Graph(nodes,
          map t | t in nodes :: set d | d in nodes && (d, t) in EdgesOf(script),
          map d | d in nodes :: set t | t in nodes && (d, t) in EdgesOf(script))
  }

  /** Every dependency was itself added or is the source; source and sink were not added, nor the sink depended on. */
  ghost predicate GoodScript(script: seq<Adding>) {
    && SOURCE !in TasksOf(script) && SINK !in TasksOf(script)
    && NamesOf(script) <= TasksOf(script) + {SOURCE}
  }

  lemma {:induction false} EdgesNamed(script: seq<Adding>)
    ensures forall d, t :: (d, t) in EdgesOf(script) ==> d in NamesOf(script) && t in TasksOf(script)
    ensures TasksOf(script) <= NamesOf(script)
  {
    if script != [] {
      var before, last := script[..|script| - 1], script[|script| - 1];
      EdgesNamed(before);
      assert script == before + [last];
      assert TasksOf(script) == TasksOf(before) + {last.task};
    }
  }

  lemma ScriptSnoc(script: seq<Adding>, i: nat)
    requires i < |script|
    ensures var before, a, after := script[..i], script[i], script[..i + 1];
      && TasksOf(after) == TasksOf(before) + {a.task}
      && StartsOf(after) == StartsOf(before) + (if a.dependencies == [] then {a.task} else {})
      && NamesOf(after) == NamesOf(before) + ({a.task} + Elems(a.dependencies))
      && EdgesOf(after) == EdgesOf(before) + EdgesInto(a.dependencies, a.task)
  {
    assert script[..i + 1] == script[..i] + [script[i]] && script[..i + 1][..i] == script[..i];
  }

  /** The empty graph with the script's names and edges added is the script's graph. */
  lemma ScriptGraphAdded(script: seq<Adding>, g: Graph)
    requires g.Valid() && g.nodes == {SOURCE, SINK} && forall x, y :: !Edge(g, x, y)
    ensures Added(g, ScriptGraph(script), NamesOf(script), EdgesOf(script))
  {
    EdgesNamed(script);
    var h := ScriptGraph(script);
    forall x, y ensures Edge(h, x, y) <==> Edge(g, x, y) || (x, y) in EdgesOf(script) {
    }
  }

  /** A new DAG has the two ends and no edge. */
  lemma NewGraph(g: Graph)
    requires g == Graph({SOURCE, SINK}, map[SOURCE := {}, SINK := {}], map[SOURCE := {}, SINK := {}])
    ensures Added(g, g, {}, {}) && forall x, y :: !Edge(g, x, y)
  {
  }

  method NewDag() returns (dag: DAG)
    ensures fresh(dag) && dag.Valid() && dag.inTask == SOURCE && dag.outTask == SINK
    ensures Added(dag.View(), dag.View(), {}, {}) && dag.View().nodes == {SOURCE, SINK}
    ensures forall x, y :: !Edge(dag.View(), x, y)
    ensures dag.tasks == dag.startTasks == dag.endTasks == {} && dag.downstreamTasks == dag.upstreamTasks == map[]
  {
    dag := new DAG();
    NewGraph(dag.View());
  }

  /** The calls `done` have been made on a DAG whose graph was g. */
  ghost predicate Holds(dag: DAG, g: Graph, done: seq<Adding>)
    reads dag
  {
    && dag.Valid() && dag.inTask == SOURCE && dag.outTask == SINK
    && Added(g, dag.View(), NamesOf(done), EdgesOf(done))
    && dag.tasks == TasksOf(done) && dag.startTasks == StartsOf(done)
    && dag.endTasks == {} && dag.downstreamTasks == dag.upstreamTasks == map[]
  }

  method AddOne(dag: DAG, ghost g: Graph, script: seq<Adding>, i: nat)
    requires i < |script| && Holds(dag, g, script[..i])
    modifies dag
    ensures Holds(dag, g, script[..i + 1])
  {
    hide DAG.Valid, Added, TasksOf, StartsOf, NamesOf, EdgesOf, EdgesInto;
    ghost var h := dag.View();
    var a := script[i];
    ScriptSnoc(script, i);
    dag.AddTask(a.task, a.dependencies);
    AddedTwice(g, h, dag.View(), NamesOf(script[..i]), EdgesOf(script[..i]),
               {a.task} + Elems(a.dependencies), EdgesInto(a.dependencies, a.task));
  }

  method AddAll(script: seq<Adding>) returns (dag: DAG)
    ensures fresh(dag) && dag.Valid() && dag.inTask == SOURCE && dag.outTask == SINK
    ensures dag.View() == ScriptGraph(script) && dag.tasks == TasksOf(script) && dag.startTasks == StartsOf(script)
    ensures dag.endTasks == {} && dag.downstreamTasks == dag.upstreamTasks == map[]
  {
    dag := NewDag();
    ghost var g := dag.View();
    assert script[..0] == [];
    assert TasksOf([]) == StartsOf([]) == NamesOf([]) == {} && EdgesOf([]) == {};
    hide DAG.Valid, Added, TasksOf, StartsOf, NamesOf, EdgesOf, ScriptGraph;
    for i := 0 to |script|
      invariant fresh(dag) && Holds(dag, g, script[..i])
    {
      AddOne(dag, g, script, i);
    }
    assert script[..|script|] == script;
    ScriptGraphAdded(script, g);
    AddedUnique(g, dag.View(), ScriptGraph(script), NamesOf(script), EdgesOf(script));
  }

  // ---------------------------------------------------------------- which scripts build

  lemma {:induction false} EdgeIn(script: seq<Adding>, a: Adding, d: Task)
    requires a in script && d in a.dependencies
    ensures (d, a.task) in EdgesOf(script) && d in NamesOf(script)
  {
    var before, last := script[..|script| - 1], script[|script| - 1];
    assert script == before + [last];
    if a == last {
      assert d in Elems(last.dependencies);
    } else {
      EdgeIn(before, a, d);
    }
  }

  lemma HasUpstream(script: seq<Adding>, a: Adding)
    requires a in script && a.dependencies != []
    ensures !Root(ScriptGraph(script), a.task)
  {
    EdgesNamed(script);
    EdgeIn(script, a, a.dependencies[0]);
    assert a.dependencies[0] in ScriptGraph(script).up[a.task];
  }

  /** A task without upstream tasks was added without dependencies. */
  lemma RootsAreStarts(script: seq<Adding>, t: Task)
    requires t in TasksOf(script) && Root(ScriptGraph(script), t)
    ensures t in StartsOf(script)
  {
    var a :| a in script && a.task == t;
    if a.dependencies != [] {
      HasUpstream(script, a);
    }
  }

  lemma GoodIsUserGraph(script: seq<Adding>)
    requires GoodScript(script) && StartsOf(script) != {} && ScriptGraph(script).Valid()
    ensures UserGraph(ScriptGraph(script), TasksOf(script), StartsOf(script), SOURCE, SINK)
  {
    EdgesNamed(script);
    assert SOURCE != SINK;
    forall t {:trigger Root(ScriptGraph(script), t)} | t in TasksOf(script) && Root(ScriptGraph(script), t)
      ensures t in StartsOf(script)
    {
      RootsAreStarts(script, t);
    }
  }

  /** If the source was added, it ends up with an upstream task. */
  lemma AddedSource(script: seq<Adding>, h: Graph)
    requires SOURCE in TasksOf(script) && ScriptGraph(script).Valid()
    requires BuildStep(ScriptGraph(script), h, TasksOf(script), StartsOf(script), SOURCE, SINK)
    ensures !Root(h, SOURCE)
  {
    var g := ScriptGraph(script);
    var g1 :| Added(g, g1, {}, SourceEdges(SOURCE, StartsOf(script))) && Added(g1, h, {}, SinkEdges(Ends(g1, TasksOf(script)), SINK));
    EdgesNamed(script);
    if Root(g, SOURCE) {
      RootsAreStarts(script, SOURCE);
      assert Edge(g1, SOURCE, SOURCE) && Edge(h, SOURCE, SOURCE);
    } else {
      var u :| u in g.up[SOURCE];
      assert Edge(g, u, SOURCE) && Edge(g1, u, SOURCE) && Edge(h, u, SOURCE);
    }
  }

  /** If the sink was added, or something was made to depend on it, it ends up with a downstream task. */
  lemma UsedSink(script: seq<Adding>, h: Graph)
    requires SINK in NamesOf(script) && ScriptGraph(script).Valid()
    requires BuildStep(ScriptGraph(script), h, TasksOf(script), StartsOf(script), SOURCE, SINK)
    ensures !Leaf(h, SINK)
  {
    var g, tasks := ScriptGraph(script), TasksOf(script);
    var g1 :| Added(g, g1, {}, SourceEdges(SOURCE, StartsOf(script))) && Added(g1, h, {}, SinkEdges(Ends(g1, tasks), SINK));
    if g1.down[SINK] != {} {
      var d :| d in g1.down[SINK];
      assert Edge(g1, SINK, d) && Edge(h, SINK, d);
    } else {
      NamedSink(script);
      assert SINK in tasks by {
        if d :| d in g.down[SINK] { assert Edge(g, SINK, d) && Edge(g1, SINK, d); }
      }
      assert SINK in Ends(g1, tasks) && Edge(h, SINK, SINK);
    }
  }

  lemma {:induction false} NamedSink(script: seq<Adding>)
    requires SINK in NamesOf(script)
    ensures SINK in TasksOf(script) || ScriptGraph(script).down[SINK] != {}
  {
    EdgesNamed(script);
    var a := NamedBy(script, SINK);
    if a.task != SINK {
      EdgeIn(script, a, SINK);
      assert a.task in ScriptGraph(script).down[SINK];
    }
  }

  lemma {:induction false} NamedBy(script: seq<Adding>, x: Task) returns (a: Adding)
    requires x in NamesOf(script)
    ensures a in script && (x == a.task || x in a.dependencies)
  {
    var before, last := script[..|script| - 1], script[|script| - 1];
    a := last;
    if x != last.task && x !in last.dependencies {
      a := NamedBy(before, x);
    }
  }

  /** A dependency that was never added stays without upstream tasks. */
  lemma NeverAdded(script: seq<Adding>, h: Graph, d: Task)
    requires d in NamesOf(script) && d !in TasksOf(script) + {SOURCE, SINK} && ScriptGraph(script).Valid()
    requires BuildStep(ScriptGraph(script), h, TasksOf(script), StartsOf(script), SOURCE, SINK)
    ensures Root(h, d)
  {
    var g := ScriptGraph(script);
    EdgesNamed(script);
    forall u ensures !Edge(g, u, d) {
      assert Edge(g, u, d) ==> (u, d) in EdgesOf(script);
    }
    assert d in g.nodes && d !in StartsOf(script);
    hide ScriptGraph, TasksOf, StartsOf, EdgesOf, NamesOf;
    BuildAddsNoneInto(g, h, TasksOf(script), StartsOf(script), d);
    NoUpstream(h, d);
  }

  lemma BuildAddsNoneInto(g: Graph, h: Graph, tasks: set<Task>, start: set<Task>, d: Task)
    requires BuildStep(g, h, tasks, start, SOURCE, SINK) && d in g.nodes && d !in start && d != SINK
    requires forall u :: !Edge(g, u, d)
    ensures h.Valid() && d in h.nodes && forall u :: !Edge(h, u, d)
  {
  }

  /** Exactly the good scripts without a cycle build a graph in which every task lies between source and sink. */
  lemma BuiltIffGood(script: seq<Adding>, h: Graph)
    requires StartsOf(script) != {} && ScriptGraph(script).Valid()
    requires BuildStep(ScriptGraph(script), h, TasksOf(script), StartsOf(script), SOURCE, SINK)
    ensures Built(h, SOURCE, SINK) <==> GoodScript(script) && Acyclic(ScriptGraph(script))
  {
    if GoodScript(script) {
      GoodIsUserGraph(script);
      BuildIffAcyclic(ScriptGraph(script), h, TasksOf(script), StartsOf(script), SOURCE, SINK);
    } else if Built(h, SOURCE, SINK) {
      EdgesNamed(script);
      if SOURCE in TasksOf(script) {
        AddedSource(script, h);
      } else if SINK in NamesOf(script) {
        UsedSink(script, h);
      } else {
        var d :| d in NamesOf(script) && d !in TasksOf(script) + {SOURCE};
        NeverAdded(script, h, d);
      }
    }
  }

  /** What the closure queries, the routers and the executor ask of a graph. */
  lemma BuiltIsReady(script: seq<Adding>, h: Graph)
    requires StartsOf(script) != {} && ScriptGraph(script).Valid() && Built(h, SOURCE, SINK)
    requires BuildStep(ScriptGraph(script), h, TasksOf(script), StartsOf(script), SOURCE, SINK)
    ensures Connected(h, SOURCE, SINK) && Acyclic(h) && h.nodes == TasksOf(script) + {SOURCE, SINK}
  {
    BuiltIffGood(script, h);
    EdgesNamed(script);
    BuildStepNodes(ScriptGraph(script), h, TasksOf(script), StartsOf(script));
    assert NamesOf(script) + {SOURCE, SINK} == TasksOf(script) + {SOURCE, SINK};
    hide BuildStep, Acyclic;
    assert Root(h, SOURCE) && Leaf(h, SINK);
  }

  lemma BuildStepNodes(g: Graph, h: Graph, tasks: set<Task>, start: set<Task>)
    requires BuildStep(g, h, tasks, start, SOURCE, SINK)
    ensures h.nodes == g.nodes
  {
  }

  /** Some call asked for d upstream of t. */
  ghost predicate Asked(script: seq<Adding>, d: Task, t: Task) {
    exists a :: a in script && a.task == t && d in a.dependencies
  }

  lemma {:induction false} EdgesAsked(script: seq<Adding>, d: Task, t: Task)
    ensures (d, t) in EdgesOf(script) <==> Asked(script, d, t)
  {
    if script != [] {
      var before, last := script[..|script| - 1], script[|script| - 1];
      EdgesAsked(before, d, t);
      assert script == before + [last];
      if Asked(script, d, t) {
        var a :| a in script && a.task == t && d in a.dependencies;
        assert a in before || a == last;
      }
      if Asked(before, d, t) {
        var a :| a in before && a.task == t && d in a.dependencies;
        assert a in script;
      }
    }
  }

  /** A registered task that no call put anything downstream of; the source has its start tasks there. */
  ghost predicate Open(script: seq<Adding>, x: Task) {
    x in TasksOf(script) && x != SOURCE && forall y :: !Asked(script, x, y)
  }

  /** The edges that calls asked for, one from the source to each start task, one to the sink from each open task. */
  ghost predicate EdgeMeant(script: seq<Adding>, x: Task, y: Task) {
    Asked(script, x, y) || (x == SOURCE && y in StartsOf(script)) || (y == SINK && Open(script, x))
  }

  lemma EdgesMeant(script: seq<Adding>, h: Graph)
    requires StartsOf(script) != {} && ScriptGraph(script).Valid()
    requires BuildStep(ScriptGraph(script), h, TasksOf(script), StartsOf(script), SOURCE, SINK)
    ensures forall x, y :: Edge(h, x, y) <==> EdgeMeant(script, x, y)
  {
    var g := ScriptGraph(script);
    EdgesNamed(script);
    forall x, y ensures Edge(g, x, y) <==> Asked(script, x, y) { EdgesAsked(script, x, y); }
    hide ScriptGraph, TasksOf, StartsOf, EdgesOf, NamesOf, Asked;
    assert TasksOf(script) <= g.nodes by { NamedNodes(script); }
    BuiltEdges(script, g, h);
  }

  lemma AskedEdges(script: seq<Adding>)
    ensures forall x, y :: Edge(ScriptGraph(script), x, y) <==> Asked(script, x, y)
  {
    EdgesNamed(script);
    forall x, y ensures Edge(ScriptGraph(script), x, y) <==> Asked(script, x, y) { EdgesAsked(script, x, y); }
  }

  lemma NamedNodes(script: seq<Adding>)
    ensures TasksOf(script) <= ScriptGraph(script).nodes
  {
    EdgesNamed(script);
    hide NamesOf, TasksOf, EdgesOf;
  }

  lemma BuiltEdges(script: seq<Adding>, g: Graph, h: Graph)
    requires BuildStep(g, h, TasksOf(script), StartsOf(script), SOURCE, SINK) && StartsOf(script) != {}
    requires TasksOf(script) <= g.nodes && forall x, y :: Edge(g, x, y) <==> Asked(script, x, y)
    ensures forall x, y :: Edge(h, x, y) <==> EdgeMeant(script, x, y)
  {
    hide TasksOf, StartsOf, Asked;
    var tasks, start := TasksOf(script), StartsOf(script);
    var g1 :| Added(g, g1, {}, SourceEdges(SOURCE, start)) && Added(g1, h, {}, SinkEdges(Ends(g1, tasks), SINK));
    var s :| s in start;
    assert Edge(g1, SOURCE, s);
    forall x ensures x in Ends(g1, tasks) <==> Open(script, x) {
      if x in tasks && g1.down[x] == {} {
        forall y ensures !Asked(script, x, y) { assert !Edge(g1, x, y); }
      }
      if Open(script, x) {
        forall y ensures !Edge(g1, x, y) {}
        assert forall y :: y in g1.down[x] ==> Edge(g1, x, y);
      }
    }
  }

  /** A DAG from scratch: any calls of `add_task`, then `build`. It refuses exactly when no task was added without
      dependencies. It leaves a graph ready for every query and every run, that is, with each task between source and
      sink, no cycle, all tasks known and fresh closures, exactly when the script is good and has no cycle. */
  method BuildDag(script: seq<Adding>) returns (dag: DAG, ok: bool)
    ensures fresh(dag) && dag.inTask == SOURCE && dag.outTask == SINK && dag.View().Valid() && dag.Fresh()
    ensures ok <==> StartsOf(script) != {}
    ensures ok ==> dag.taskSet == dag.tasks == TasksOf(script) + {SOURCE, SINK} && dag.startTasks == StartsOf(script)
    ensures ok ==> forall x, y :: Edge(dag.View(), x, y) <==> EdgeMeant(script, x, y)
    ensures !ok ==> forall x, y :: Edge(dag.View(), x, y) <==> Asked(script, x, y)
    ensures ok ==> (Built(dag.View(), SOURCE, SINK) <==> GoodScript(script) && Acyclic(ScriptGraph(script)))
    ensures ok && Built(dag.View(), SOURCE, SINK) ==>
      Connected(dag.View(), SOURCE, SINK) && Acyclic(dag.View()) && dag.taskSet == dag.View().nodes
  {
    dag := AddAll(script);
    AskedEdges(script);
    hide BuildStep, Built, Acyclic, ScriptGraph, TasksOf, StartsOf, Connected, Collected, GoodScript, Asked, EdgeMeant, Edge;
    ok := dag.Build();
    if ok {
      EdgesMeant(script, dag.View());
      BuiltIffGood(script, dag.View());
      if Built(dag.View(), SOURCE, SINK) {
        BuiltIsReady(script, dag.View());
      }
    }
  }
}
