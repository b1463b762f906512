/** Scripts of context operations, against a forest that says what they are meant to do (shutils/dag/context.py). */
module LifecycleScripts {
  import opened Graphs
  import opened TaskStates
  import opened Options
  import opened Lifecycles

  // ---------------------------------------------------------------- the forest

  /** A context by the number of its parent, whether the runtime counts it, and what has become of it. */
  datatype Node = Node(parent: Option<nat>, counted: bool, dead: bool, completed: set<Task>)

  datatype Op = NewRoot(counted: bool) | NewChild(parent: nat) | DestroyOne(which: nat, up: bool) | CompleteOn(which: nat, task: Task)

  /** Number i is k or a descendant of it. */
  predicate Below(f: seq<Node>, i: nat, k: nat)
    decreases i
  {
    i == k || (i < |f| && f[i].parent.Some? && f[i].parent.value < i && Below(f, f[i].parent.value, k))
  }

  /** Destroying k takes everything below it and, going up, its parent if no other child of that lives. */
  predicate Dies(f: seq<Node>, k: nat, up: bool, i: nat)
    requires k < |f|
  {
    && !f[k].dead
    && (Below(f, i, k)
        || (up && f[k].parent == Some(i) && forall j :: 0 <= j < |f| && f[j].parent == Some(i) && j != k ==> f[j].dead))
  }

  /** What an operation is meant to do: children are created only under live contexts, completions are noted by the
      context and its ancestors, and numbers that are not there are ignored. */
  function Meant(g: Graph, f: seq<Node>, op: Op): seq<Node> {
    match op
    case NewRoot(counted) => f + [Node(None, counted, false, {})]
    case NewChild(k) => if k < |f| && !f[k].dead then f + [Node(Some(k), f[k].counted, false, {})] else f
    case DestroyOne(k, up) =>
      if k < |f| then seq(|f|, i requires 0 <= i < |f| => if Dies(f, k, up, i) then f[i].(dead := true) else f[i]) else f
    case CompleteOn(k, t) =>
      if k < |f| && t in g.nodes then
        seq(|f|, i requires 0 <= i < |f| => if Below(f, k, i) then f[i].(completed := f[i].completed + {t}) else f[i])
      else f
  }

  function AllMeant(g: Graph, script: seq<Op>): seq<Node> {
    if |script| == 0 then [] else Meant(g, AllMeant(g, script[..|script| - 1]), script[|script| - 1])
  }

  // ---------------------------------------------------------------- contexts and forest

  ghost function Members(contexts: seq<Context>): set<Context> {
    set c | c in contexts
  }

  /** The i-th context hangs where the forest says. */
  ghost predicate Hangs(contexts: seq<Context>, rt: Runtime, f: seq<Node>, i: nat)
    requires |contexts| == |f|
  {
    && i < |f|
    && (f[i].parent.Some? ==> f[i].parent.value < i)
    && contexts[i].parent == (if f[i].parent.Some? then contexts[f[i].parent.value] else null)
    && contexts[i].runtime == (if f[i].counted then rt else null)
  }

  ghost predicate Shaped(contexts: seq<Context>, rt: Runtime, f: seq<Node>) {
    && |contexts| == |f| && Distinct(contexts)
    && forall i :: 0 <= i < |f| ==> Hangs(contexts, rt, f, i)
  }

  ghost function DeadOf(contexts: seq<Context>): seq<bool>
    reads Members(contexts)
  {
    seq(|contexts|, i requires 0 <= i < |contexts| reads Members(contexts) => contexts[i].destroyed)
  }

  ghost function ProgressOf(contexts: seq<Context>): seq<Progress>
    reads Members(contexts)
  {
    seq(|contexts|, i requires 0 <= i < |contexts| reads Members(contexts) => contexts[i].progress)
  }

  ghost predicate DeadAs(dead: seq<bool>, f: seq<Node>) {
    |dead| == |f| && forall i :: 0 <= i < |f| ==> (dead[i] <==> f[i].dead)
  }

  ghost predicate NotedAs(g: Graph, notes: seq<Progress>, f: seq<Node>)
    requires g.Valid()
  {
    && |notes| == |f|
    && forall i :: 0 <= i < |f| ==> !notes[i].skip && notes[i].tasks.completed == f[i].completed && Exact(g, notes[i].tasks)
  }

  /** The contexts are as the forest says. */
  ghost predicate Mirrors(g: Graph, contexts: seq<Context>, rt: Runtime, f: seq<Node>)
    requires g.Valid()
    reads Members(contexts), rt
  {
    && Valid(Members(contexts), rt) && Shaped(contexts, rt, f)
    && DeadAs(DeadOf(contexts), f) && NotedAs(g, ProgressOf(contexts), f)
  }

  lemma {:induction false} UnderIff(contexts: seq<Context>, rt: Runtime, f: seq<Node>, i: nat, k: nat)
    requires Tree(Members(contexts)) && Shaped(contexts, rt, f) && i < |f| && k < |f|
    ensures Under(contexts[i], contexts[k]) <==> Below(f, i, k)
    decreases i
  {
    assert Hangs(contexts, rt, f, i) && HangsRight(Members(contexts), contexts[i]);
    if i != k {
      assert contexts[i] != contexts[k];
      if f[i].parent.Some? {
        UnderIff(contexts, rt, f, f[i].parent.value, k);
      }
    }
  }

  lemma OnlyChild(contexts: seq<Context>, rt: Runtime, f: seq<Node>, k: nat, p: nat)
    requires Shaped(contexts, rt, f) && DeadAs(DeadOf(contexts), f) && k < |f| && f[k].parent == Some(p)
    ensures var w := Members(contexts);
      p < |f| && (Childless(w, Dead(w) + {contexts[k]}, contexts[p])
                  <==> forall j :: 0 <= j < |f| && f[j].parent == Some(p) && j != k ==> f[j].dead)
  {
    var w := Members(contexts);
    assert Hangs(contexts, rt, f, k);
    forall j | 0 <= j < |f| ensures contexts[j] in w && (contexts[j].parent == contexts[p] <==> f[j].parent == Some(p)) {
      assert Hangs(contexts, rt, f, j);
    }
  }

  /** The doomed contexts are those that the forest says die. */
  lemma DoomedIff(contexts: seq<Context>, rt: Runtime, f: seq<Node>, k: nat, up: bool, i: nat)
    requires Tree(Members(contexts)) && Shaped(contexts, rt, f) && DeadAs(DeadOf(contexts), f) && k < |f| && i < |f|
    ensures var w := Members(contexts); contexts[i] in Doomed(w, Dead(w), contexts[k], up) <==> Dies(f, k, up, i)
  {
    var w := Members(contexts);
    UnderIff(contexts, rt, f, i, k);
    assert contexts[i] in w && contexts[k] in w;
    assert Hangs(contexts, rt, f, k);
    if f[k].parent.Some? {
      OnlyChild(contexts, rt, f, k, f[k].parent.value);
      assert contexts[i] == contexts[k].parent <==> i == f[k].parent.value;
    }
    hide Under, Below, Childless, Tree;
  }

  // ---------------------------------------------------------------- operations

  lemma OneMoreMember(contexts: seq<Context>, c: Context)
    ensures Members(contexts + [c]) == Members(contexts) + {c}
  {
  }

  lemma ShapedMore(contexts: seq<Context>, rt: Runtime, f: seq<Node>, c: Context, n: Node)
    requires Shaped(contexts, rt, f) && c !in contexts && c.runtime == (if n.counted then rt else null)
    requires n.parent.Some? ==> n.parent.value < |f|
    requires c.parent == (if n.parent.Some? then contexts[n.parent.value] else null)
    ensures Shaped(contexts + [c], rt, f + [n])
  {
    forall i | 0 <= i < |f| + 1 ensures Hangs(contexts + [c], rt, f + [n], i) {
      if i < |f| { assert Hangs(contexts, rt, f, i); }
    }
  }

  method Add(g: Graph, contexts: seq<Context>, rt: Runtime, ghost f: seq<Node>, counted: bool, ghost parent: Option<nat>, p: Context?)
    returns (more: seq<Context>)
    requires g.Valid() && Mirrors(g, contexts, rt, f)
    requires parent.Some? ==> parent.value < |f| && !f[parent.value].dead && p == contexts[parent.value]
    requires parent.None? ==> p == null
    modifies rt, Members(contexts)
    ensures Mirrors(g, more, rt, f + [Node(parent, counted, false, {})]) && fresh(Members(more) - Members(contexts))
  {
    hide Valid, Exact;
    EmptyExact(g);
    var c := Create(Members(contexts), rt, counted, p);
    more := contexts + [c];
    OneMoreMember(contexts, c);
    assert forall i :: 0 <= i < |f| ==> contexts[i] in Members(contexts) && (contexts[i].destroyed <==> contexts[i] in Dead(Members(more)));
    ShapedMore(contexts, rt, f, c, Node(parent, counted, false, {}));
    hide Shaped;
    assert ProgressOf(more) == old(ProgressOf(contexts)) + [c.progress];
    assert DeadOf(more) == old(DeadOf(contexts)) + [false];
  }

  lemma DeadAfter(dead: seq<bool>, dead': seq<bool>, f: seq<Node>, f': seq<Node>, k: nat, up: bool)
    requires DeadAs(dead, f) && |dead'| == |f| == |f'| && k < |f|
    requires forall i :: 0 <= i < |f| ==> (dead'[i] <==> dead[i] || Dies(f, k, up, i))
    requires forall i :: 0 <= i < |f| ==> (f'[i].dead <==> f[i].dead || Dies(f, k, up, i))
    ensures DeadAs(dead', f')
  {
    hide Dies;
  }

  lemma NotedAfter(g: Graph, notes: seq<Progress>, notes': seq<Progress>, f: seq<Node>, f': seq<Node>, k: nat, t: Task)
    requires g.Valid() && NotedAs(g, notes, f) && |notes'| == |f| == |f'|
    requires forall i :: 0 <= i < |f| ==> if Below(f, k, i) then Noted(g, notes[i], notes'[i], t) else notes'[i] == notes[i]
    requires forall i :: 0 <= i < |f| ==> f'[i].completed == f[i].completed + (if Below(f, k, i) then {t} else {})
    ensures NotedAs(g, notes', f')
  {
    hide Exact, Below;
  }

  /** The four parts of the mirror. */
  lemma Parts(g: Graph, contexts: seq<Context>, rt: Runtime, f: seq<Node>)
    requires g.Valid() && Mirrors(g, contexts, rt, f)
    ensures Valid(Members(contexts), rt) && Shaped(contexts, rt, f) && |contexts| == |f|
    ensures DeadAs(DeadOf(contexts), f) && NotedAs(g, ProgressOf(contexts), f)
  {
    hide Valid, Shaped, DeadAs, NotedAs;
    assert Shaped(contexts, rt, f) ==> |contexts| == |f| by { if Shaped(contexts, rt, f) { SameSize(contexts, rt, f); } }
  }

  lemma SameSize(contexts: seq<Context>, rt: Runtime, f: seq<Node>)
    requires Shaped(contexts, rt, f)
    ensures |contexts| == |f|
  {
  }

  lemma Together(g: Graph, contexts: seq<Context>, rt: Runtime, f: seq<Node>)
    requires g.Valid() && Valid(Members(contexts), rt) && Shaped(contexts, rt, f) && |contexts| == |f|
    requires DeadAs(DeadOf(contexts), f) && NotedAs(g, ProgressOf(contexts), f)
    ensures Mirrors(g, contexts, rt, f)
  {
    hide Valid, Shaped, DeadAs, NotedAs;
  }

  /** Exactly those are destroyed that were, or that the forest says die. */
  method DestroyDies(ghost g: Graph, contexts: seq<Context>, rt: Runtime, ghost f: seq<Node>, k: nat, up: bool)
    requires g.Valid() && Mirrors(g, contexts, rt, f) && k < |contexts| == |f|
    modifies rt, Members(contexts)
    ensures Valid(Members(contexts), rt) && ProgressOf(contexts) == old(ProgressOf(contexts))
    ensures |DeadOf(contexts)| == |old(DeadOf(contexts))| == |f|
    ensures forall i :: 0 <= i < |f| ==> (DeadOf(contexts)[i] <==> old(DeadOf(contexts))[i] || Dies(f, k, up, i))
  {
    hide Mirrors, Valid, Doomed, Dies, Graph.Valid, Tree;
    MirrorsValid(g, contexts, rt, f, k);
    ghost var w := Members(contexts);
    ghost var doomed := DoomedAll(g, contexts, rt, f, k, up);
    assert forall i :: 0 <= i < |f| ==> contexts[i] in w && (contexts[i].destroyed <==> contexts[i] in Dead(w));
    DestroyContext(w, rt, contexts[k], up);
    hide Members;
    assert forall i :: 0 <= i < |f| ==> (contexts[i].destroyed <==> contexts[i] in Dead(w));
    hide Dead;
  }

  method DestroyAt(g: Graph, contexts: seq<Context>, rt: Runtime, ghost f: seq<Node>, k: nat, up: bool)
    requires g.Valid() && Mirrors(g, contexts, rt, f) && k < |contexts|
    modifies rt, Members(contexts)
    ensures Mirrors(g, contexts, rt, Meant(g, f, DestroyOne(k, up)))
  {
    hide *;
    ghost var f', dead := Meant(g, f, DestroyOne(k, up)), DeadOf(contexts);
    Parts(g, contexts, rt, f);
    DestroyMeans(g, f, k, up);
    ReshapedSame(contexts, rt, f, f');
    NotedSame(g, ProgressOf(contexts), f, f');
    DestroyDies(g, contexts, rt, f, k, up);
    DeadAfter(dead, DeadOf(contexts), f, f', k, up);
    Together(g, contexts, rt, f');
  }

  lemma NotedSame(g: Graph, notes: seq<Progress>, f: seq<Node>, f': seq<Node>)
    requires g.Valid() && NotedAs(g, notes, f) && |f'| == |f|
    requires forall i :: 0 <= i < |f| ==> f'[i].completed == f[i].completed
    ensures NotedAs(g, notes, f')
  {
    hide Exact;
  }

  lemma DeadSame(dead: seq<bool>, f: seq<Node>, f': seq<Node>)
    requires DeadAs(dead, f) && |f'| == |f|
    requires forall i :: 0 <= i < |f| ==> f'[i].dead == f[i].dead
    ensures DeadAs(dead, f')
  {
  }

  lemma MirrorsValid(g: Graph, contexts: seq<Context>, rt: Runtime, f: seq<Node>, k: nat)
    requires g.Valid() && Mirrors(g, contexts, rt, f) && k < |contexts|
    ensures |contexts| == |f| && Valid(Members(contexts), rt) && Tree(Members(contexts)) && contexts[k] in Members(contexts)
  {
    Parts(g, contexts, rt, f);
    hide Shaped, Tree, Counted, Settled, Mirrors;
  }

  lemma DoomedAll(g: Graph, contexts: seq<Context>, rt: Runtime, f: seq<Node>, k: nat, up: bool) returns (doomed: set<Context>)
    requires g.Valid() && Mirrors(g, contexts, rt, f) && |contexts| == |f| && k < |f|
    ensures doomed == Doomed(Members(contexts), Dead(Members(contexts)), contexts[k], up)
    ensures forall i :: 0 <= i < |f| ==> (contexts[i] in doomed <==> Dies(f, k, up, i))
  {
    doomed := Doomed(Members(contexts), Dead(Members(contexts)), contexts[k], up);
    forall i | 0 <= i < |f| ensures contexts[i] in doomed <==> Dies(f, k, up, i) {
      DoomedIff(contexts, rt, f, k, up, i);
    }
  }

  lemma DestroyMeans(g: Graph, f: seq<Node>, k: nat, up: bool)
    requires k < |f|
    ensures var f' := Meant(g, f, DestroyOne(k, up));
      && |f'| == |f| && SameShape(f, f') && (forall i :: 0 <= i < |f| ==> f'[i].completed == f[i].completed)
      && forall i :: 0 <= i < |f| ==> (f'[i].dead <==> f[i].dead || Dies(f, k, up, i))
  {
    hide Dies;
  }

  lemma CompleteMeans(g: Graph, f: seq<Node>, k: nat, t: Task)
    requires k < |f| && t in g.nodes
    ensures var f' := Meant(g, f, CompleteOn(k, t));
      && |f'| == |f| && SameShape(f, f') && (forall i :: 0 <= i < |f| ==> f'[i].dead == f[i].dead)
      && forall i :: 0 <= i < |f| ==> f'[i].completed == f[i].completed + if Below(f, k, i) then {t} else {}
  {
    hide Below;
  }

  lemma UnderAll(g: Graph, contexts: seq<Context>, rt: Runtime, f: seq<Node>, k: nat)
    requires g.Valid() && Mirrors(g, contexts, rt, f) && |contexts| == |f| && k < |f|
    ensures forall i :: 0 <= i < |f| ==> (Under(contexts[k], contexts[i]) <==> Below(f, k, i))
  {
    forall i | 0 <= i < |f| ensures Under(contexts[k], contexts[i]) <==> Below(f, k, i) {
      UnderIff(contexts, rt, f, k, i);
    }
  }

  ghost predicate SameShape(f: seq<Node>, f': seq<Node>) {
    |f'| == |f| && forall i :: 0 <= i < |f| ==> f'[i].parent == f[i].parent && f'[i].counted == f[i].counted
  }

  lemma ReshapedSame(contexts: seq<Context>, rt: Runtime, f: seq<Node>, f': seq<Node>)
    requires Shaped(contexts, rt, f) && SameShape(f, f')
    ensures Shaped(contexts, rt, f')
  {
    forall i | 0 <= i < |f'| ensures Hangs(contexts, rt, f', i) {
      assert Hangs(contexts, rt, f, i);
    }
  }

  /** Exactly the context and its ancestors note the completion. */
  method CompleteNotes(g: Graph, contexts: seq<Context>, rt: Runtime, ghost f: seq<Node>, k: nat, t: Task)
    requires g.Valid() && t in g.nodes && Mirrors(g, contexts, rt, f) && k < |contexts| == |f|
    modifies Members(contexts)`progress
    ensures Valid(Members(contexts), rt) && DeadOf(contexts) == old(DeadOf(contexts))
    ensures |ProgressOf(contexts)| == |old(ProgressOf(contexts))| == |f|
    ensures forall i :: 0 <= i < |f| ==>
      if Below(f, k, i) then Noted(g, old(ProgressOf(contexts))[i], ProgressOf(contexts)[i], t)
      else ProgressOf(contexts)[i] == old(ProgressOf(contexts))[i]
  {
    MirrorsValid(g, contexts, rt, f, k);
    UnderAll(g, contexts, rt, f, k);
    hide Mirrors, Under, Below, Noted, Graph.Valid, Right, Settled, Tree;
    assert forall i :: 0 <= i < |f| ==> contexts[i] in Members(contexts);
    Complete(Members(contexts), g, contexts[k], t);
  }

  method CompleteAt(g: Graph, contexts: seq<Context>, rt: Runtime, ghost f: seq<Node>, k: nat, t: Task)
    requires g.Valid() && t in g.nodes && Mirrors(g, contexts, rt, f) && k < |contexts|
    modifies Members(contexts)`progress
    ensures Mirrors(g, contexts, rt, Meant(g, f, CompleteOn(k, t)))
  {
    hide *;
    ghost var f', notes := Meant(g, f, CompleteOn(k, t)), ProgressOf(contexts);
    Parts(g, contexts, rt, f);
    CompleteMeans(g, f, k, t);
    ReshapedSame(contexts, rt, f, f');
    DeadSame(DeadOf(contexts), f, f');
    CompleteNotes(g, contexts, rt, f, k, t);
    NotedAfter(g, notes, ProgressOf(contexts), f, f', k, t);
    Together(g, contexts, rt, f');
  }

  /** One operation. */
  method Perform(g: Graph, contexts: seq<Context>, rt: Runtime, ghost f: seq<Node>, op: Op) returns (more: seq<Context>)
    requires g.Valid() && Mirrors(g, contexts, rt, f)
    modifies rt, Members(contexts)
    ensures Mirrors(g, more, rt, Meant(g, f, op)) && fresh(Members(more) - Members(contexts))
  {
    MirrorsMeans(g, contexts, rt, f);
    hide Mirrors, Members, Graph.Valid;
    more := contexts;
    match op
    case NewRoot(counted) =>
      more := Add(g, contexts, rt, f, counted, None, null);
    case NewChild(k) =>
      if k < |contexts| && !contexts[k].destroyed {
        more := Add(g, contexts, rt, f, contexts[k].runtime != null, Some(k), contexts[k]);
      }
    case DestroyOne(k, up) =>
      if k < |contexts| {
        DestroyAt(g, contexts, rt, f, k, up);
      }
    case CompleteOn(k, t) =>
      if k < |contexts| && t in g.nodes {
        CompleteAt(g, contexts, rt, f, k, t);
      }
  }

  lemma MirrorsMeans(g: Graph, contexts: seq<Context>, rt: Runtime, f: seq<Node>)
    requires g.Valid() && Mirrors(g, contexts, rt, f)
    ensures |contexts| == |f|
    ensures forall i :: 0 <= i < |f| ==> (contexts[i].destroyed <==> f[i].dead) && (contexts[i].runtime != null <==> f[i].counted)
  {
    forall i | 0 <= i < |f| ensures contexts[i].runtime != null <==> f[i].counted {
      assert Hangs(contexts, rt, f, i);
    }
  }

  ghost function LiveCounted(f: seq<Node>): set<nat> {
    set i | 0 <= i < |f| && f[i].counted && !f[i].dead
  }

  /** The runtime counter is the number of live contexts that it counts. */
  lemma CounterIs(g: Graph, contexts: seq<Context>, rt: Runtime, f: seq<Node>)
    requires g.Valid() && Mirrors(g, contexts, rt, f)
    ensures rt.counter == |LiveCounted(f)|
  {
    var live := Live(Members(contexts), Dead(Members(contexts)), rt);
    forall i | 0 <= i < |f| ensures contexts[i] in live <==> i in LiveCounted(f) {
      assert Hangs(contexts, rt, f, i);
    }
    assert live == set i | i in LiveCounted(f) :: contexts[i];
    hide Mirrors, Live;
    ImageSize(contexts, LiveCounted(f));
  }

  lemma {:induction false} ImageSize(contexts: seq<Context>, s: set<nat>)
    requires Distinct(contexts) && forall i :: i in s ==> i < |contexts|
    ensures |set i | i in s :: contexts[i]| == |s|
  {
    if s != {} {
      var k :| k in s;
      ImageSize(contexts, s - {k});
      assert (set i | i in s :: contexts[i]) == (set i | i in s - {k} :: contexts[i]) + {contexts[k]};
    }
  }

  lemma EmptyMirrors(g: Graph, rt: Runtime, script: seq<Op>)
    requires g.Valid() && rt.counter == 0
    ensures Mirrors(g, [], rt, AllMeant(g, script[..0])) && Members([]) == {}
  {
    assert Live({}, Dead({}), rt) == {} && Members([]) == {} && AllMeant(g, script[..0]) == [];
    hide Valid, Meant, Graph.Valid;
  }

  lemma NextMeant(g: Graph, script: seq<Op>, i: nat)
    requires g.Valid() && i < |script|
    ensures AllMeant(g, script[..i + 1]) == Meant(g, AllMeant(g, script[..i]), script[i])
  {
    assert script[..i + 1][..i] == script[..i];
    hide Meant;
  }

  /** Any script of operations, on one runtime: the contexts are created, destroyed and completed as the forest says,
      and the counter is the number of live contexts that it counts. */
  method Drive(g: Graph, script: seq<Op>) returns (rt: Runtime, contexts: seq<Context>)
    requires g.Valid()
    ensures Mirrors(g, contexts, rt, AllMeant(g, script)) && rt.counter == |LiveCounted(AllMeant(g, script))|
  {
    rt := new Runtime();
    contexts := [];
    hide Valid, Meant, AllMeant, Mirrors, Graph.Valid;
    EmptyMirrors(g, rt, script);
    for i := 0 to |script|
      invariant fresh(rt) && fresh(Members(contexts)) && Mirrors(g, contexts, rt, AllMeant(g, script[..i]))
    {
      NextMeant(g, script, i);
      var more := Perform(g, contexts, rt, AllMeant(g, script[..i]), script[i]);
      contexts := more;
    }
    assert script[..|script|] == script;
    CounterIs(g, contexts, rt, AllMeant(g, script));
  }
}
