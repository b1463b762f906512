/** The breadth-first walk behind the four mask functions (shutils/dag/utils.py). */
module Masks {
  import opened Graphs
  import opened TaskStates

  /** The tasks a walk is meant to yield. */
  ghost function Target(g: Graph, ts: seq<Task>, maskSelf: bool): set<Task>
    requires g.Valid()
  {
    DescOf(g, Elems(ts)) + (if maskSelf then Elems(ts) else {})
  }

  /** A set closed under edges that holds the children of x holds all descendants of x. */
  lemma ClosedHoldsDesc(g: Graph, s: set<Task>, x: Task)
    requires g.Valid() && x in g.nodes && g.down[x] <= s <= g.nodes
    requires forall t :: t in s ==> g.down[t] <= s
    ensures Desc(g, x) <= s
  {
    forall y | y in Desc(g, x)
      ensures y in s
    {
      var p :| IsPath(g, p) && |p| >= 2 && p[0] == x && p[|p| - 1] == y;
      var i := 1;
      assert p[1] in g.down[p[0]];
      while i < |p| - 1
        invariant 1 <= i < |p| && p[i] in s
      {
        var j := i + 1;
        assert p[j] in g.down[p[i]];
        i := j;
      }
    }
  }

  lemma TargetClosed(g: Graph, ts: seq<Task>, maskSelf: bool, x: Task)
    requires g.Valid() && Elems(ts) <= g.nodes && (x in ts || x in Target(g, ts, maskSelf))
    ensures x in g.nodes && g.down[x] <= Target(g, ts, maskSelf)
  {
    if x in ts {
      DescUnfold(g, x);
    } else {
      var t :| t in Elems(ts) && x in Desc(g, t);
      DescUnfold(g, x);
      DescTrans(g, t, x);
    }
  }

  /** Extends a walk by the not yet seen tasks of `more`, in any order. */
  method Enqueue(more: set<Task>, seen: set<Task>, queue: seq<Task>, ghost yielded: seq<Task>)
    returns (seen': set<Task>, queue': seq<Task>)
    requires Distinct(yielded + queue) && seen == Elems(yielded + queue)
    ensures Distinct(yielded + queue') && seen' == Elems(yielded + queue')
    ensures seen' == seen + more && queue <= queue'
  {
    seen', queue' := seen, queue;
    var todo := more;
    while todo != {}
      invariant todo <= more && seen' == seen + (more - todo) && queue <= queue'
      invariant Distinct(yielded + queue') && seen' == Elems(yielded + queue')
    {
      var t :| t in todo;
      todo := todo - {t};
      if t !in seen' {
        assert yielded + (queue' + [t]) == (yielded + queue') + [t];
        seen' := seen' + {t};
        queue' := queue' + [t];
      }
    }
  }

  /** First half of the walk: the neighbours of the given tasks, and the tasks themselves if asked. */
  method Seed(g: Graph, ts: seq<Task>, maskSelf: bool) returns (seen: set<Task>, queue: seq<Task>)
    requires g.Valid() && Elems(ts) <= g.nodes
    ensures Distinct([] + queue) && seen == Elems([] + queue)
    ensures seen <= Target(g, ts, maskSelf)
    ensures forall t :: t in ts ==> g.down[t] <= seen && (maskSelf ==> t in seen)
  {
    seen, queue := {}, [];
    for i := 0 to |ts|
      invariant Distinct([] + queue) && seen == Elems([] + queue)
      invariant seen <= Target(g, ts, maskSelf)
      invariant forall j :: 0 <= j < i ==> g.down[ts[j]] <= seen && (maskSelf ==> ts[j] in seen)
    {
      assert ts[i] in Elems(ts);
      TargetClosed(g, ts, maskSelf, ts[i]);
      seen, queue := Enqueue(g.down[ts[i]], seen, queue, []);
      if maskSelf && ts[i] !in seen {
        assert [] + (queue + [ts[i]]) == ([] + queue) + [ts[i]];
        seen := seen + {ts[i]};
        queue := queue + [ts[i]];
      }
    }
  }

  /** Taking the head off the queue keeps walk and queue together distinct. */
  lemma PopHead(yielded: seq<Task>, queue: seq<Task>)
    requires queue != [] && Distinct(yielded + queue)
    ensures yielded + queue == (yielded + [queue[0]]) + queue[1..]
    ensures queue[0] in Elems(yielded + queue) && queue[0] !in yielded
  {
    assert (yielded + queue)[|yielded|] == queue[0];
    forall i | 0 <= i < |yielded| ensures yielded[i] != queue[0] {
      assert (yielded + queue)[i] == yielded[i];
    }
  }

  ghost predicate ClosedDown(g: Graph, s: set<Task>)
    requires g.Valid()
  {
    s <= g.nodes && forall t :: t in s ==> g.down[t] <= s
  }

  /** Second half of the walk: pop a task, queue its unseen neighbours, yield it. */
  method Drain(g: Graph, seen0: set<Task>, queue0: seq<Task>, ghost target: set<Task>) returns (yielded: seq<Task>)
    requires g.Valid() && ClosedDown(g, target)
    requires Distinct([] + queue0) && seen0 == Elems([] + queue0) && seen0 <= target
    ensures Distinct(yielded)
    ensures seen0 <= Elems(yielded) <= target && ClosedDown(g, Elems(yielded))
  {
    var seen, queue := seen0, queue0;
    yielded := [];
    while queue != []
      invariant Distinct(yielded + queue) && seen == Elems(yielded + queue)
      invariant seen0 <= seen <= target
      invariant forall t :: t in yielded ==> t in target && g.down[t] <= seen
      decreases target - Elems(yielded)
    {
      var cur := queue[0];
      PopHead(yielded, queue);
      assert cur in target - Elems(yielded) && cur in Elems(yielded + [cur]);
      seen, queue := Enqueue(g.down[cur], seen, queue[1..], yielded + [cur]);
      yielded := yielded + [cur];
    }
    assert yielded + [] == yielded;
  }

  /** The walk yields every member of its target exactly once, on any graph. */
  method MaskCommon(g: Graph, ts: seq<Task>, maskSelf: bool) returns (yielded: seq<Task>)
    requires g.Valid() && Elems(ts) <= g.nodes
    ensures Distinct(yielded)
    ensures Elems(yielded) == Target(g, ts, maskSelf)
  {
    forall x | x in Target(g, ts, maskSelf)
      ensures x in g.nodes && g.down[x] <= Target(g, ts, maskSelf)
    {
      TargetClosed(g, ts, maskSelf, x);
    }
    var seen, queue := Seed(g, ts, maskSelf);
    yielded := Drain(g, seen, queue, Target(g, ts, maskSelf));
    WalkComplete(g, ts, maskSelf, Elems(yielded));
  }

  lemma WalkComplete(g: Graph, ts: seq<Task>, maskSelf: bool, seen: set<Task>)
    requires g.Valid() && Elems(ts) <= g.nodes && seen <= g.nodes
    requires forall t :: t in ts ==> g.down[t] <= seen && (maskSelf ==> t in seen)
    requires ClosedDown(g, seen)
    ensures Target(g, ts, maskSelf) <= seen
  {
    forall t | t in ts
      ensures Desc(g, t) <= seen
    {
      assert t in Elems(ts);
      ClosedHoldsDesc(g, seen, t);
    }
  }

  /** `mask_downstream_task_*`: completes the whole target, and the available set stays exact.
      `mask_upstream_task_*` is the same on the reversed graph, see MaskUpstream. */
  method MaskDownstream(st: TaskState, g: Graph, ts: seq<Task>, maskSelf: bool)
    requires g.Valid() && Elems(ts) <= g.nodes && !st.skipComplete && Exact(g, st.View())
    modifies st
    ensures st.completedTasks == old(st.completedTasks) + Target(g, ts, maskSelf)
    ensures Exact(g, st.View()) && !st.skipComplete
  {
    var walk := MaskCommon(g, ts, maskSelf);
    CompleteWalk(st, g, walk);
  }

  method MaskUpstream(st: TaskState, g: Graph, ts: seq<Task>, maskSelf: bool)
    requires g.Valid() && Elems(ts) <= g.nodes && !st.skipComplete && Exact(g, st.View())
    modifies st
    ensures st.completedTasks == old(st.completedTasks) + AncOf(g, Elems(ts)) + (if maskSelf then Elems(ts) else {})
    ensures Exact(g, st.View()) && !st.skipComplete
  {
    var walk := MaskCommon(g.Reverse(), ts, maskSelf);
    forall t ensures Anc(g, t) == Desc(g.Reverse(), t) { AncIsDescOfReverse(g, t); }
    assert AncOf(g, Elems(ts)) == DescOf(g.Reverse(), Elems(ts));
    CompleteWalk(st, g, walk);
  }

  method CompleteWalk(st: TaskState, g: Graph, walk: seq<Task>)
    requires g.Valid() && Elems(walk) <= g.nodes && !st.skipComplete && Exact(g, st.View())
    modifies st
    ensures st.completedTasks == old(st.completedTasks) + Elems(walk)
    ensures Exact(g, st.View()) && !st.skipComplete
  {
    for i := 0 to |walk|
      invariant st.completedTasks == old(st.completedTasks) + Elems(walk[..i])
      invariant Exact(g, st.View()) && !st.skipComplete
    {
      assert walk[i] in Elems(walk);
      CompleteExact(g, st.View(), walk[i]);
      st.Complete(g, walk[i]);
      assert walk[..i + 1] == walk[..i] + [walk[i]];
    }
    assert walk[..|walk|] == walk;
  }
}
