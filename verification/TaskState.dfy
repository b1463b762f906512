/** Completed and available tasks of one context (shutils/dag/task_state.py). */
module TaskStates {
  import opened Graphs

  datatype TState = TState(completed: set<Task>, available: set<Task>)

  /** The tasks that completing `t` last makes available. */
  function Unlocked(g: Graph, completed: set<Task>, t: Task): set<Task>
    requires g.Valid() && t in g.nodes
  {
    set d | d in g.down[t] && d !in completed && g.up[d] <= completed
  }

  /** Specification of one `_complete` call. */
  function AfterComplete(g: Graph, s: TState, t: Task): TState
    requires g.Valid() && t in g.nodes
  {
    if t in s.completed then s
    else TState(s.completed + {t}, s.available - {t} + Unlocked(g, s.completed + {t}, t))
  }

  ghost function CompleteAll(g: Graph, s: TState, ts: seq<Task>): TState
    requires g.Valid() && forall t :: t in ts ==> t in g.nodes
    decreases |ts|
  {
    if ts == [] then s else CompleteAll(g, AfterComplete(g, s, ts[0]), ts[1..])
  }

  /** What the available set is meant to be: uncompleted tasks with upstream tasks, all completed. */
  ghost function Ready(g: Graph, completed: set<Task>): set<Task>
    requires g.Valid()
  {
    set t | t in g.nodes && t !in completed && g.up[t] != {} && g.up[t] <= completed
  }

  ghost predicate Exact(g: Graph, s: TState)
    requires g.Valid()
  {
    s.available == Ready(g, s.completed)
  }

  /** One call keeps the available set exact, whichever task is completed. */
  lemma CompleteExact(g: Graph, s: TState, t: Task)
    requires g.Valid() && t in g.nodes && Exact(g, s)
    ensures Exact(g, AfterComplete(g, s, t))
    ensures AfterComplete(g, s, t).completed == s.completed + {t}
  {
    if t !in s.completed {
      var c := s.completed + {t};
      forall x | x in Ready(g, c)
        ensures x in s.available - {t} + Unlocked(g, c, t)
      {
        if !(g.up[x] <= s.completed) {
          assert t in g.up[x];
          assert x in g.down[t];
        }
      }
      forall x | x in Unlocked(g, c, t)
        ensures x in Ready(g, c)
      {
        assert t in g.up[x];
      }
    }
  }

  /** The state in which `more` are completed too. */
  ghost function With(g: Graph, s: TState, more: set<Task>): TState
    requires g.Valid()
  {
    TState(s.completed + more, Ready(g, s.completed + more))
  }

  lemma WithOne(g: Graph, s: TState, t: Task)
    requires g.Valid() && t in g.nodes && Exact(g, s)
    ensures AfterComplete(g, s, t) == With(g, s, {t}) && Exact(g, With(g, s, {t}))
  {
    CompleteExact(g, s, t);
  }

  /** After any sequence of completions from the empty state, in any order and with
      repetitions, the available tasks are exactly the ready ones. */
  lemma {:induction false} AvailableIsReady(g: Graph, s: TState, ts: seq<Task>)
    requires g.Valid() && forall t :: t in ts ==> t in g.nodes
    requires Exact(g, s)
    ensures Exact(g, CompleteAll(g, s, ts))
    ensures CompleteAll(g, s, ts).completed == s.completed + set t | t in ts
    decreases |ts|
  {
    if ts != [] {
      CompleteExact(g, s, ts[0]);
      AvailableIsReady(g, AfterComplete(g, s, ts[0]), ts[1..]);
      assert ts == [ts[0]] + ts[1..];
    }
  }

  /** Two completion sequences lead to the same state exactly when they complete the same tasks. */
  lemma OrderIrrelevant(g: Graph, ts: seq<Task>, us: seq<Task>)
    requires g.Valid() && (forall t :: t in ts ==> t in g.nodes) && (forall t :: t in us ==> t in g.nodes)
    ensures CompleteAll(g, TState({}, {}), ts) == CompleteAll(g, TState({}, {}), us)
            <==> (set t | t in ts) == (set t | t in us)
  {
    EmptyExact(g);
    AvailableIsReady(g, TState({}, {}), ts);
    AvailableIsReady(g, TState({}, {}), us);
    assert {} + (set t | t in ts) == set t | t in ts;
    assert {} + (set t | t in us) == set t | t in us;
  }

  lemma EmptyExact(g: Graph)
    requires g.Valid()
    ensures Exact(g, TState({}, {}))
  {
  }

  lemma {:induction false} CompleteAllSnoc(g: Graph, s: TState, ts: seq<Task>, t: Task)
    requires g.Valid() && t in g.nodes && forall t :: t in ts ==> t in g.nodes
    ensures CompleteAll(g, s, ts + [t]) == AfterComplete(g, CompleteAll(g, s, ts), t)
    decreases |ts|
  {
    if ts == [] {
      assert ts + [t] == [t];
      assert [t][1..] == [];
    } else {
      assert (ts + [t])[0] == ts[0] && (ts + [t])[1..] == ts[1..] + [t];
      CompleteAllSnoc(g, AfterComplete(g, s, ts[0]), ts[1..], t);
    }
  }

  /** Above any uncompleted task of a built graph there is a ready one, once the source is completed. */
  lemma {:induction false} ReadyAbove(g: Graph, source: Task, sink: Task, completed: set<Task>, x: Task) returns (t: Task)
    requires Built(g, source, sink) && source in completed && x in g.nodes && x !in completed
    ensures t in Ready(g, completed) && (t == x || t in Anc(g, x))
    decreases Anc(g, x)
  {
    assert !Root(g, x);
    if g.up[x] <= completed {
      t := x;
    } else {
      var u :| u in g.up[x] && u !in completed;
      DescEdge(g, u, x);
      assert u !in Anc(g, u) && u in Anc(g, x);
      t := ReadyAbove(g, source, sink, completed, u);
    }
  }

  /** While the source is completed and the sink is not, some task is available. */
  lemma SomethingAvailable(g: Graph, source: Task, sink: Task, s: TState)
    requires Built(g, source, sink) && Exact(g, s) && source in s.completed && sink !in s.completed
    ensures s.available != {}
  {
    var t := ReadyAbove(g, source, sink, s.completed, sink);
  }

  class TaskState {
    var completedTasks: set<Task>
    var availableTasks: set<Task>
    var skipComplete: bool

    ghost function View(): TState
      reads this
    {
      TState(completedTasks, availableTasks)
    }

    constructor ()
      ensures View() == TState({}, {}) && !skipComplete
    {
      completedTasks, availableTasks, skipComplete := {}, {}, false;
    }

    /** `_complete`, visiting the downstream tasks in any order. */
    method Complete(g: Graph, task: Task)
      requires g.Valid() && task in g.nodes
      modifies this
      ensures old(skipComplete) ==> View() == old(View())
      ensures !old(skipComplete) ==> View() == AfterComplete(g, old(View()), task)
      ensures !skipComplete
    {
      if skipComplete {
        skipComplete := false;
        return;
      }
      if task !in completedTasks {
        availableTasks := availableTasks - {task};
        completedTasks := completedTasks + {task};
        ghost var seen: set<Task> := {};
        var todo := g.down[task];
        while todo != {}
          invariant todo + seen == g.down[task]
          invariant completedTasks == old(completedTasks) + {task} && !skipComplete
          invariant availableTasks == old(availableTasks) - {task} + (Unlocked(g, completedTasks, task) * seen)
        {
          var d :| d in todo;
          todo := todo - {d};
          seen := seen + {d};
          if d in completedTasks {
            continue;
          }
          if g.up[d] <= completedTasks {
            availableTasks := availableTasks + {d};
          }
        }
        assert seen == g.down[task];
        assert Unlocked(g, completedTasks, task) * seen == Unlocked(g, completedTasks, task);
      }
    }
  }
}
