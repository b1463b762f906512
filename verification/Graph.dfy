/** Finite directed graphs of tasks: edges, paths, descendants, ancestors.

    Tasks compare equal by id in the program, so a task is its id here. */
module Graphs {

  datatype Task = Task(id: string)

  ghost predicate Distinct<T>(s: seq<T>) {
    forall i, j :: 0 <= i < j < |s| ==> s[i] != s[j]
  }

  function Elems<T>(s: seq<T>): set<T> {
    set t | t in s
  }

  /** `up` and `down` are the two edge sets every task object carries. */
  datatype Graph = Graph(nodes: set<Task>, up: map<Task, set<Task>>, down: map<Task, set<Task>>) {

    /** Edges stay inside the graph and the two edge sets mirror each other. */
    ghost predicate Valid() {
      && up.Keys == nodes && down.Keys == nodes
      && (forall x, y {:trigger y in down[x]} :: x in nodes && y in down[x] ==> y in nodes && x in up[y])
      && (forall x, y {:trigger x in up[y]} :: y in nodes && x in up[y] ==> x in nodes && y in down[x])
    }

    function Reverse(): Graph { Graph(nodes, down, up) }
  }

  ghost predicate IsPath(g: Graph, p: seq<Task>)
    requires g.Valid()
  {
    && |p| > 0
    && (forall i :: 0 <= i < |p| ==> p[i] in g.nodes)
    && (forall i, j :: 0 <= i < |p| - 1 && j == i + 1 ==> p[j] in g.down[p[i]])
  }

  /** A path of at least one edge leads from x to y. */
  ghost predicate Reaches(g: Graph, x: Task, y: Task)
    requires g.Valid()
  {
    exists p :: IsPath(g, p) && |p| >= 2 && p[0] == x && p[|p| - 1] == y
  }

  /** Proper descendants: everything at least one edge downstream. */
  ghost function Desc(g: Graph, x: Task): set<Task>
    requires g.Valid()
  {
    set y | y in g.nodes && Reaches(g, x, y)
  }

  /** Proper ancestors. */
  ghost function Anc(g: Graph, x: Task): set<Task>
    requires g.Valid()
  {
    set y | y in g.nodes && Reaches(g, y, x)
  }

  /** Proper descendants of a set of tasks. */
  ghost function DescOf(g: Graph, s: set<Task>): set<Task>
    requires g.Valid()
  {
    set x, y | x in s && y in Desc(g, x) :: y
  }

  ghost function AncOf(g: Graph, s: set<Task>): set<Task>
    requires g.Valid()
  {
    set x, y | x in s && y in Anc(g, x) :: y
  }

  ghost predicate Acyclic(g: Graph)
    requires g.Valid()
  {
    forall x :: x in g.nodes ==> x !in Desc(g, x)
  }

  ghost predicate Root(g: Graph, x: Task) {
    x in g.up && g.up[x] == {}
  }

  ghost predicate Leaf(g: Graph, x: Task) {
    x in g.down && g.down[x] == {}
  }

  /** The source alone has no upstream task, the sink alone no downstream task. */
  ghost predicate Framed(g: Graph, source: Task, sink: Task)
    requires g.Valid()
  {
    && source in g.nodes && sink in g.nodes && source != sink
    && (forall x {:trigger Root(g, x)} :: Root(g, x) <==> x == source)
    && (forall x {:trigger Leaf(g, x)} :: Leaf(g, x) <==> x == sink)
  }

  /** The shape `build` leaves behind: every task lies between the source and the sink. */
  ghost predicate Built(g: Graph, source: Task, sink: Task) {
    g.Valid() && Acyclic(g) && Framed(g, source, sink)
  }

  // ---------------------------------------------------------------- paths

  lemma ReachesEdge(g: Graph, x: Task, y: Task)
    requires g.Valid() && x in g.nodes && y in g.down[x]
    ensures Reaches(g, x, y)
  {
    assert IsPath(g, [x, y]);
  }

  lemma ReachesTrans(g: Graph, x: Task, y: Task, z: Task)
    requires g.Valid() && Reaches(g, x, y) && Reaches(g, y, z)
    ensures Reaches(g, x, z)
  {
    var p :| IsPath(g, p) && |p| >= 2 && p[0] == x && p[|p| - 1] == y;
    var q :| IsPath(g, q) && |q| >= 2 && q[0] == y && q[|q| - 1] == z;
    var r := p + q[1..];
    forall i, j | 0 <= i < |r| - 1 && j == i + 1
      ensures r[j] in g.down[r[i]]
    {
      if i < |p| - 1 {
        assert r[i] == p[i] && r[j] == p[j];
      } else {
        assert r[i] == q[i - (|p| - 1)] && r[j] == q[j - (|p| - 1)];
      }
    }
    assert IsPath(g, r);
  }

  /** The first edge of a path, and what is left of it. */
  lemma ReachesFirst(g: Graph, x: Task, y: Task)
    requires g.Valid() && Reaches(g, x, y)
    ensures x in g.nodes && y in g.nodes
    ensures exists d :: d in g.down[x] && (d == y || Reaches(g, d, y))
  {
    var p :| IsPath(g, p) && |p| >= 2 && p[0] == x && p[|p| - 1] == y;
    var q := p[1..];
    assert q[0] in g.down[x] by { assert p[1] in g.down[p[0]]; }
    if |q| >= 2 {
      forall i, j | 0 <= i < |q| - 1 && j == i + 1
        ensures q[j] in g.down[q[i]]
      {
        assert p[j + 1] in g.down[p[i + 1]];
      }
      assert IsPath(g, q) && q[|q| - 1] == y;
      assert Reaches(g, q[0], y);
    }
  }

  function Rev(p: seq<Task>): (r: seq<Task>)
    ensures |r| == |p|
    ensures forall i :: 0 <= i < |p| ==> r[i] == p[|p| - 1 - i]
  {
    seq(|p|, i requires 0 <= i < |p| => p[|p| - 1 - i])
  }

  lemma ReachesReverse(g: Graph, x: Task, y: Task)
    requires g.Valid()
    ensures Reaches(g.Reverse(), y, x) <==> Reaches(g, x, y)
  {
    var h := g.Reverse();
    if Reaches(g, x, y) {
      var p :| IsPath(g, p) && |p| >= 2 && p[0] == x && p[|p| - 1] == y;
      PathReverse(g, p);
    }
    if Reaches(h, y, x) {
      var p :| IsPath(h, p) && |p| >= 2 && p[0] == y && p[|p| - 1] == x;
      PathReverse(h, p);
      assert h.Reverse() == g;
    }
  }

  lemma PathReverse(g: Graph, p: seq<Task>)
    requires g.Valid() && IsPath(g, p)
    ensures IsPath(g.Reverse(), Rev(p))
  {
    var q := Rev(p);
    var h := g.Reverse();
    forall i, j | 0 <= i < |q| - 1 && j == i + 1
      ensures q[j] in h.down[q[i]]
    {
      var a, b := |p| - 1 - j, |p| - 1 - i;
      assert b == a + 1 && p[b] in g.down[p[a]];
    }
  }

  /** Reversing the graph swaps descendants and ancestors. */
  lemma {:induction false} AncIsDescOfReverse(g: Graph, x: Task)
    requires g.Valid()
    ensures g.Reverse().Valid()
    ensures Anc(g, x) == Desc(g.Reverse(), x)
    ensures Desc(g, x) == Anc(g.Reverse(), x)
  {
    forall y ensures Reaches(g.Reverse(), x, y) <==> Reaches(g, y, x) { ReachesReverse(g, y, x); }
    forall y ensures Reaches(g.Reverse(), y, x) <==> Reaches(g, x, y) { ReachesReverse(g, x, y); }
  }

  // ---------------------------------------------------------------- descendants

  /** Descendants are the children and everything below them. */
  lemma DescUnfold(g: Graph, x: Task)
    requires g.Valid() && x in g.nodes
    ensures Desc(g, x) == g.down[x] + DescOf(g, g.down[x])
  {
    forall y | y in Desc(g, x)
      ensures y in g.down[x] + DescOf(g, g.down[x])
    {
      ReachesFirst(g, x, y);
      var d :| d in g.down[x] && (d == y || Reaches(g, d, y));
      if d != y {
        assert y in Desc(g, d);
      }
    }
    forall y | y in g.down[x]
      ensures y in Desc(g, x)
    {
      ReachesEdge(g, x, y);
    }
    forall y | y in DescOf(g, g.down[x])
      ensures y in Desc(g, x)
    {
      var d :| d in g.down[x] && y in Desc(g, d);
      ReachesEdge(g, x, d);
      ReachesTrans(g, x, d, y);
    }
  }

  lemma AncUnfold(g: Graph, x: Task)
    requires g.Valid() && x in g.nodes
    ensures Anc(g, x) == g.up[x] + AncOf(g, g.up[x])
  {
    var h := g.Reverse();
    AncIsDescOfReverse(g, x);
    DescUnfold(h, x);
    forall u ensures Anc(g, u) == Desc(h, u) { AncIsDescOfReverse(g, u); }
  }

  lemma DescTrans(g: Graph, x: Task, y: Task)
    requires g.Valid() && y in Desc(g, x)
    ensures Desc(g, y) <= Desc(g, x)
    ensures Anc(g, x) <= Anc(g, y)
    ensures x in g.nodes && x in Anc(g, y)
  {
    ReachesFirst(g, x, y);
    forall z | z in Desc(g, y) ensures z in Desc(g, x) { ReachesTrans(g, x, y, z); }
    forall z | z in Anc(g, x) ensures z in Anc(g, y) { ReachesTrans(g, z, x, y); }
  }

  lemma DescEdge(g: Graph, x: Task, y: Task)
    requires g.Valid() && x in g.nodes && y in g.down[x]
    ensures y in Desc(g, x) && Desc(g, y) <= Desc(g, x)
    ensures x in Anc(g, y) && Anc(g, x) <= Anc(g, y)
  {
    ReachesEdge(g, x, y);
    DescTrans(g, x, y);
  }

  lemma AcyclicReverse(g: Graph)
    requires g.Valid()
    ensures g.Reverse().Valid() && (Acyclic(g.Reverse()) <==> Acyclic(g))
  {
    forall x ensures Reaches(g.Reverse(), x, x) <==> Reaches(g, x, x) { ReachesReverse(g, x, x); }
  }

  /** Every task but the sink can reach the sink. */
  lemma {:induction false} SinkBelow(g: Graph, source: Task, sink: Task, x: Task)
    requires Built(g, source, sink) && x in g.nodes && x != sink
    ensures sink in Desc(g, x)
    decreases Desc(g, x)
  {
    assert !Leaf(g, x);
    var d :| d in g.down[x];
    DescEdge(g, x, d);
    if d != sink {
      assert d !in Desc(g, d) && d in Desc(g, x);
      SinkBelow(g, source, sink, d);
    }
  }

  /** A set of tasks that contains every upstream task of its members contains their ancestors. */
  lemma {:induction false} UpClosedHoldsAncestors(g: Graph, c: set<Task>, x: Task)
    requires g.Valid() && Acyclic(g) && x in c && c <= g.nodes
    requires forall t :: t in c ==> g.up[t] <= c
    ensures Anc(g, x) <= c
    decreases Anc(g, x)
  {
    AncUnfold(g, x);
    forall u | u in g.up[x]
      ensures Anc(g, u) <= c
    {
      DescEdge(g, u, x);
      assert u !in Anc(g, u) && u in Anc(g, x);
      UpClosedHoldsAncestors(g, c, u);
    }
  }
}
