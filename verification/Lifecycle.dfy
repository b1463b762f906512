/** The tree of contexts: creation, cascading destruction in both directions, and the runtime counter
    that tells the workers when to stop (shutils/dag/context.py, shutils/dag/runtime.py). */
module Lifecycles {
  import opened Graphs
  import opened TaskStates

  class Runtime {
    var counter: int

    constructor ()
      ensures counter == 0
    {
      counter := 0;
    }
  }

  /** Task state of a context, with the flag that makes it ignore its next completion. */
  datatype Progress = Progress(skip: bool, tasks: TState)

  function Completes(g: Graph, p: Progress, t: Task): Progress
    requires g.Valid() && t in g.nodes
  {
    if p.skip then Progress(false, p.tasks) else Progress(false, AfterComplete(g, p.tasks, t))
  }

  /** The completion of t has been noted: t is completed unless this was the completion to be skipped, and what was
      exactly available still is. */
  ghost predicate Noted(g: Graph, before: Progress, after: Progress, t: Task)
    requires g.Valid()
  {
    && !after.skip
    && after.tasks.completed == before.tasks.completed + (if before.skip then {} else {t})
    && (Exact(g, before.tasks) ==> Exact(g, after.tasks))
  }

  lemma CompletesNotes(g: Graph, p: Progress, t: Task)
    requires g.Valid() && t in g.nodes
    ensures Noted(g, p, Completes(g, p, t), t)
  {
    if Exact(g, p.tasks) { CompleteExact(g, p.tasks, t); }
  }

  class Context {
    const runtime: Runtime?
    const parent: Context?
    ghost const depth: nat
    var children: seq<Context>
    var childNum: int
    var destroyed: bool
    var progress: Progress

    /** The new context itself; the caller hangs it under its parent. */
    constructor (runtime: Runtime?, parent: Context?)
      ensures this.runtime == runtime && this.parent == parent
      ensures depth == (if parent == null then 0 else parent.depth + 1)
      ensures children == [] && childNum == 0 && !destroyed
      ensures progress == Progress(false, TState({}, {}))
    {
      this.runtime, this.parent := runtime, parent;
      depth := if parent == null then 0 else parent.depth + 1;
      children, childNum, destroyed := [], 0, false;
      progress := Progress(false, TState({}, {}));
    }
  }

  // ---------------------------------------------------------------- the tree

  /** d is c or one of its descendants. */
  ghost predicate Under(d: Context, c: Context)
    decreases d.depth
  {
    d == c || (d.parent != null && d.parent.depth < d.depth && Under(d.parent, c))
  }

  ghost function Dead(w: set<Context>): set<Context>
    reads w`destroyed
  {
    set d | d in w && d.destroyed
  }

  ghost function LiveChildren(w: set<Context>, dead: set<Context>, c: Context): set<Context> {
    set d | d in w && d !in dead && d.parent == c
  }

  ghost function Live(w: set<Context>, dead: set<Context>, rt: Runtime): set<Context> {
    set d | d in w && d !in dead && d.runtime == rt
  }

  ghost predicate HangsRight(w: set<Context>, c: Context)
    reads c`children
  {
    && (c.parent != null ==> c.parent in w && c.parent.depth < c.depth)
    && (forall d :: d in c.children ==> d in w && d.parent == c)
    && (forall d :: d in w && d.parent == c ==> d in c.children)
  }

  /** Parent and child links agree. */
  ghost predicate Tree(w: set<Context>)
    reads w`children
  {
    forall c :: c in w ==> HangsRight(w, c)
  }

  ghost function Nums(w: set<Context>): map<Context, int>
    reads w`childNum
  {
    map c | c in w :: c.childNum
  }

  /** The runtime counter is the number of its live contexts, and each child count that of live children. */
  ghost predicate Right(w: set<Context>, dead: set<Context>, nums: map<Context, int>, rt: Runtime, counter: int) {
    && counter == |Live(w, dead, rt)|
    && nums.Keys == w
    && (forall c :: c in w ==> nums[c] == |LiveChildren(w, dead, c)|)
    && (forall c :: c in w ==> c.runtime == null || c.runtime == rt)
  }

  ghost predicate Counted(w: set<Context>, rt: Runtime)
    reads w`destroyed, w`childNum, rt
  {
    Right(w, Dead(w), Nums(w), rt, rt.counter)
  }

  ghost predicate Childless(w: set<Context>, dead: set<Context>, c: Context) {
    forall d :: d in w && d.parent == c ==> d in dead
  }

  /** Below a destroyed context nothing lives, except under the contexts whose destruction is under way. */
  ghost predicate Settled(w: set<Context>, dead: set<Context>, open: set<Context>) {
    forall c :: c in dead && c !in open ==> Childless(w, dead, c)
  }

  /** Between calls. */
  ghost predicate Valid(w: set<Context>, rt: Runtime)
    reads w`destroyed, w`childNum, w`children, rt
  {
    Tree(w) && Counted(w, rt) && Settled(w, Dead(w), {})
  }

  /** Between calls the whole subtree under a destroyed context is dead. */
  lemma {:induction false} SubtreeDead(w: set<Context>, rt: Runtime, c: Context, d: Context)
    requires Valid(w, rt) && c in w && d in w && c.destroyed && Under(d, c)
    ensures d.destroyed
    decreases d.depth
  {
    if d != c {
      assert HangsRight(w, d);
      SubtreeDead(w, rt, c, d.parent);
      assert Childless(w, Dead(w), d.parent);
    }
  }

  /** The workers' stop test: the counter is 0 exactly when no context of the runtime lives. */
  lemma CounterZeroIff(w: set<Context>, rt: Runtime)
    requires Counted(w, rt)
    ensures rt.counter == 0 <==> forall c :: c in w && c.runtime == rt ==> c.destroyed
  {
    if rt.counter == 0 {
      assert forall c :: c in w && c.runtime == rt ==> c.destroyed || c in Live(w, Dead(w), rt);
    } else {
      var c :| c in Live(w, Dead(w), rt);
    }
  }

  // ---------------------------------------------------------------- destruction

  ghost function Lowered(nums: map<Context, int>, p: Context?): map<Context, int> {
    if p != null && p in nums then nums[p := nums[p] - 1] else nums
  }

  lemma KidsWithout(w: set<Context>, dead: set<Context>, c: Context, x: Context)
    requires c in w && c !in dead
    ensures |LiveChildren(w, dead + {c}, x)| == |LiveChildren(w, dead, x)| - (if x == c.parent then 1 else 0)
  {
    assert LiveChildren(w, dead + {c}, x) == LiveChildren(w, dead, x) - {c};
  }

  lemma LiveWithout(w: set<Context>, dead: set<Context>, c: Context, rt: Runtime)
    requires c in w && c !in dead && (c.runtime == null || c.runtime == rt)
    ensures |Live(w, dead + {c}, rt)| == |Live(w, dead, rt)| - (if c.runtime == null then 0 else 1)
  {
    assert Live(w, dead + {c}, rt) == Live(w, dead, rt) - {c};
  }

  /** Marking c, lowering the counter if c has a runtime, and lowering its parent's count keep all counts right. */
  lemma RightAfter(w: set<Context>, dead: set<Context>, nums: map<Context, int>, rt: Runtime, counter: int, c: Context)
    requires Right(w, dead, nums, rt, counter) && c in w && c !in dead
    ensures Right(w, dead + {c}, Lowered(nums, c.parent), rt, if c.runtime == null then counter else counter - 1)
  {
    LiveWithout(w, dead, c, rt);
    forall x | x in w ensures Lowered(nums, c.parent)[x] == |LiveChildren(w, dead + {c}, x)| {
      KidsWithout(w, dead, c, x);
    }
    hide LiveChildren, Live;
    assert Lowered(nums, c.parent).Keys == w;
  }

  /** No context whose parent lock is held has a live child. */
  ghost predicate HeldChildless(w: set<Context>, dead: set<Context>, held: set<Context>) {
    forall h :: h in held ==> Childless(w, dead, h)
  }

  ghost predicate MayLockParent(c: Context, held: set<Context>) {
    c.parent != null ==> c.parent !in held
  }

  method CountOut(ghost w: set<Context>, rt: Runtime, c: Context)
    requires c in w && !c.destroyed
    modifies rt, c`destroyed
    ensures Dead(w) == old(Dead(w)) + {c} && c !in old(Dead(w))
    ensures rt.counter == if c.runtime == null then old(rt.counter) else old(rt.counter) - 1
  {
    c.destroyed := true;
    if c.runtime != null {
      rt.counter := rt.counter - 1;
    }
  }

  /** Under the parent's lock, which the caller must not hold already. */
  method LeaveParent(ghost w: set<Context>, c: Context, ghost held: set<Context>)
    requires MayLockParent(c, held) && (c.parent != null ==> c.parent in w)
    modifies w`childNum
    ensures Nums(w) == Lowered(old(Nums(w)), c.parent)
  {
    if c.parent != null {
      c.parent.childNum := c.parent.childNum - 1;
    }
    assert Nums(w).Keys == Lowered(old(Nums(w)), c.parent).Keys;
  }

  /** What `destory` does to its own context first: mark it, count it out, and take it off the
      parent's count. */
  method Kill(ghost w: set<Context>, rt: Runtime, c: Context, ghost held: set<Context>)
    requires c in w && Counted(w, rt) && !c.destroyed && (c.parent != null ==> c.parent in w)
    requires MayLockParent(c, held)
    modifies rt, w`destroyed, w`childNum
    ensures Dead(w) == old(Dead(w)) + {c} && c !in old(Dead(w))
    ensures Counted(w, rt)
  {
    hide Right, Lowered;
    assert c !in Dead(w);
    RightAfter(w, Dead(w), Nums(w), rt, rt.counter, c);
    CountOut(w, rt, c);
    assert Nums(w) == old(Nums(w));
    LeaveParent(w, c, held);
    assert Dead(w) == old(Dead(w)) + {c};
  }

  // ---------------------------------------------------------------- what destruction reaches

  lemma {:induction false} UnderTrans(a: Context, b: Context, c: Context)
    requires Under(a, b) && Under(b, c)
    ensures Under(a, c)
    decreases a.depth
  {
    if a != b {
      UnderTrans(a.parent, b, c);
    }
  }

  lemma MarkSettled(w: set<Context>, dead: set<Context>, c: Context, open: set<Context>)
    requires Settled(w, dead, open)
    ensures Settled(w, dead + {c}, open + {c})
  {
  }

  /** When the loop over the children is through, the context's own destruction is complete. */
  lemma CloseSettled(w: set<Context>, dead: set<Context>, c: Context, open: set<Context>)
    requires Tree(w) && c in w && Settled(w, dead, open + {c})
    requires forall j :: 0 <= j < |c.children| ==> c.children[j] in dead
    ensures Settled(w, dead, open)
  {
    assert HangsRight(w, c);
  }

  lemma ChildIsUnder(w: set<Context>, c: Context, k: Context)
    requires Tree(w) && c in w && k in c.children
    ensures k in w && Under(k, c)
  {
    assert HangsRight(w, c);
    assert HangsRight(w, k);
  }

  lemma ChildlessStays(w: set<Context>, dead: set<Context>, dead': set<Context>, held: set<Context>)
    requires dead <= dead' && HeldChildless(w, dead, held)
    ensures HeldChildless(w, dead', held)
  {
  }

  /** Destroying a parent whose children are all marked reaches nothing but the parent itself and what is
      under the one child whose destruction is under way. */
  lemma {:induction false} UnderParent(w: set<Context>, dead: set<Context>, c: Context, p: Context, d: Context)
    requires Tree(w) && Settled(w, dead, {c}) && Childless(w, dead, p)
    requires d in w && d !in dead && Under(d, p)
    ensures d == p || Under(d, c)
    decreases d.depth
  {
    if d != p {
      assert HangsRight(w, d);
      if d.parent in dead {
        assert d.parent == c;
      } else {
        UnderParent(w, dead, c, p, d.parent);
      }
    }
  }

  lemma ZeroCount(w: set<Context>, rt: Runtime, c: Context)
    requires c in w && Counted(w, rt)
    ensures c.childNum == 0 <==> Childless(w, Dead(w), c)
  {
    if c.childNum == 0 {
      assert forall d :: d in w && d.parent == c ==> d in Dead(w) || d in LiveChildren(w, Dead(w), c);
    } else {
      var d :| d in LiveChildren(w, Dead(w), c);
    }
  }

  lemma FollowsStays(w: set<Context>, dead: set<Context>, dead': set<Context>, dead'': set<Context>, c: Context)
    requires ParentFollows(w, dead, dead', c) && dead' <= dead''
    ensures ParentFollows(w, dead, dead'', c)
  {
  }

  ghost function AliveIn(w: set<Context>, dead: set<Context>): nat {
    |w - dead|
  }

  lemma Fewer(w: set<Context>, a: set<Context>, b: set<Context>, c: Context)
    requires c in w && c !in a && a + {c} <= b
    ensures AliveIn(w, b) < AliveIn(w, a)
  {
    assert w - b <= w - a - {c};
    SubsetSize(w - b, w - a - {c});
  }

  /** A live context's parent has a live child, so its lock is not among those held. */
  lemma ParentLock(w: set<Context>, dead: set<Context>, c: Context, held: set<Context>)
    requires c in w && Tree(w) && c !in dead && HeldChildless(w, dead, held)
    ensures MayLockParent(c, held) && (c.parent != null ==> c.parent in w)
  {
    assert HangsRight(w, c);
  }

  lemma HoldOneMore(w: set<Context>, dead: set<Context>, held: set<Context>, p: Context)
    requires HeldChildless(w, dead, held) && Childless(w, dead, p)
    ensures HeldChildless(w, dead, held + {p})
  {
  }

  lemma NotMore(w: set<Context>, a: set<Context>, b: set<Context>)
    requires a <= b
    ensures AliveIn(w, b) <= AliveIn(w, a)
  {
    assert w - b <= w - a;
    SubsetSize(w - b, w - a);
  }

  lemma SubsetSize(a: set<Context>, b: set<Context>)
    requires a <= b
    ensures |a| <= |b|
  {
    assert b == a + (b - a);
  }

  /** What one destruction may kill: what is under the context and, going up, its parent. */
  ghost predicate Reach(w: set<Context>, dead: set<Context>, dead': set<Context>, c: Context, up: bool) {
    && dead <= dead'
    && (forall d :: d in dead' && d !in dead ==> Under(d, c) || (up && d == c.parent && Childless(w, dead + {c}, d)))
  }

  ghost predicate ParentFollows(w: set<Context>, dead: set<Context>, dead': set<Context>, c: Context) {
    c.parent != null && Childless(w, dead, c.parent) ==> c.parent in dead'
  }

  lemma ReachSelf(w: set<Context>, dead: set<Context>, c: Context, up: bool)
    ensures Reach(w, dead, dead + {c}, c, up)
  {
  }

  lemma ReachRefl(w: set<Context>, dead: set<Context>, c: Context)
    ensures Reach(w, dead, dead, c, false)
  {
  }

  lemma ReachTrans(w: set<Context>, dead: set<Context>, mid: set<Context>, dead': set<Context>, c: Context, up: bool)
    requires Reach(w, dead, mid, c, up) && Reach(w, mid, dead', c, false)
    ensures Reach(w, dead, dead', c, up) && mid <= dead'
  {
  }

  lemma ReachChild(w: set<Context>, dead: set<Context>, mid: set<Context>, dead': set<Context>, c: Context, k: Context)
    requires Reach(w, dead, mid, c, false) && Reach(w, mid, dead', k, false) && Under(k, c)
    ensures Reach(w, dead, dead', c, false)
  {
    forall d | d in dead' && d !in mid ensures Under(d, c) {
      UnderTrans(d, k, c);
    }
  }

  lemma ReachUp(w: set<Context>, dead: set<Context>, dead': set<Context>, c: Context, p: Context)
    requires Tree(w) && Settled(w, dead + {c}, {c}) && p == c.parent && Childless(w, dead + {c}, p)
    requires Reach(w, dead + {c}, dead', p, false) && dead' <= w
    ensures Reach(w, dead, dead', c, true)
  {
    forall d | d in dead' && d !in dead + {c} ensures d == p || Under(d, c) {
      UnderParent(w, dead + {c}, c, p, d);
    }
  }

  /** What a call has done to the set of destroyed contexts. */
  ghost predicate Outcome(w: set<Context>, before: set<Context>, after: set<Context>, c: Context, up: bool) {
    && c in after && before <= after && Reach(w, before, after, c, up) && (c in before ==> after == before)
    && (up && c !in before && c.parent != null ==> ParentFollows(w, before + {c}, after, c))
  }

  lemma OutcomeIs(w: set<Context>, before: set<Context>, after: set<Context>, c: Context, up: bool)
    requires Outcome(w, before, after, c, up)
    ensures c in after && before <= after && Reach(w, before, after, c, up)
  {
  }

  lemma NothingToDo(w: set<Context>, dead: set<Context>, c: Context, up: bool)
    requires c in dead
    ensures Outcome(w, dead, dead, c, up)
  {
  }

  lemma Concluded(w: set<Context>, before: set<Context>, marked: set<Context>, raised: set<Context>, after: set<Context>,
                  c: Context, up: bool)
    requires c !in before && marked == before + {c} && marked <= raised
    requires Reach(w, before, raised, c, up) && Reach(w, raised, after, c, false)
    requires up && c.parent != null ==> ParentFollows(w, marked, raised, c)
    ensures Outcome(w, before, after, c, up)
  {
    ReachTrans(w, before, raised, after, c, up);
    if up && c.parent != null {
      FollowsStays(w, marked, raised, after, c);
    }
  }

  lemma AfterKill(w: set<Context>, before: set<Context>, marked: set<Context>, c: Context, up: bool, held: set<Context>, open: set<Context>)
    requires c in w && c !in before && marked == before + {c} && Settled(w, before, open) && HeldChildless(w, before, held)
    ensures Settled(w, marked, open + {c}) && Reach(w, before, marked, c, up) && HeldChildless(w, marked, held)
    ensures AliveIn(w, marked) < AliveIn(w, before)
  {
    hide Settled, Reach, HeldChildless, AliveIn;
    MarkSettled(w, before, c, open);
    ReachSelf(w, before, c, up);
    Fewer(w, before, marked, c);
    ChildlessStays(w, before, marked, held);
  }

  lemma BeforeChildren(w: set<Context>, before: set<Context>, marked: set<Context>, raised: set<Context>, c: Context, held: set<Context>)
    requires c in w && c !in before && marked == before + {c} && marked <= raised && HeldChildless(w, marked, held)
    ensures AliveIn(w, raised) < AliveIn(w, before) && HeldChildless(w, raised, held)
  {
    hide HeldChildless, AliveIn;
    Fewer(w, before, raised, c);
    ChildlessStays(w, marked, raised, held);
  }

  // ---------------------------------------------------------------- destroy

  /** `destory`. `held` are the contexts whose parent lock the caller holds, `open` those whose own
      destruction is under way. */
  method Destroy(ghost w: set<Context>, rt: Runtime, c: Context, up: bool, ghost held: set<Context>, ghost open: set<Context>)
    requires c in w && Tree(w) && Counted(w, rt) && Settled(w, Dead(w), open)
    requires up ==> open == {}
    requires HeldChildless(w, Dead(w), held)
    modifies rt, w`destroyed, w`childNum
    ensures Counted(w, rt) && Settled(w, Dead(w), open) && Outcome(w, old(Dead(w)), Dead(w), c, up)
    decreases AliveIn(w, Dead(w)), 0
  {
    hide Settled, Right, Tree, Childless, Reach, HeldChildless, AliveIn, MayLockParent, ParentFollows, Outcome;
    ghost var before := Dead(w);
    if c.destroyed {
      NothingToDo(w, before, c, up);
      return;
    }
    ParentLock(w, before, c, held);
    Kill(w, rt, c, held);
    ghost var marked, busy := Dead(w), open + {c};
    AfterKill(w, before, marked, c, up, held, open);
    if up && c.parent != null {
      DestroyParent(w, rt, c, c.parent, before, held, busy);
    }
    ghost var raised := Dead(w);
    BeforeChildren(w, before, marked, raised, c, held);
    DestroyChildren(w, rt, c, held, open);
    Concluded(w, before, marked, raised, Dead(w), c, up);
  }

  /** The upward branch, under the parent's lock: the parent goes when c was its last live child. */
  method DestroyParent(ghost w: set<Context>, rt: Runtime, c: Context, p: Context, ghost before: set<Context>, ghost held: set<Context>,
                       ghost busy: set<Context>)
    requires p in w && p == c.parent && Tree(w) && Counted(w, rt) && Settled(w, Dead(w), busy) && busy == {c}
    requires Dead(w) == before + {c} && HeldChildless(w, Dead(w), held)
    modifies rt, w`destroyed, w`childNum
    ensures Counted(w, rt) && Settled(w, Dead(w), busy) && old(Dead(w)) <= Dead(w)
    ensures Reach(w, before, Dead(w), c, true)
    ensures ParentFollows(w, before + {c}, Dead(w), c)
    decreases AliveIn(w, Dead(w)), 1
  {
    hide Settled, Right, Tree, Childless, Reach, HeldChildless, AliveIn, Outcome;
    ghost var marked := Dead(w);
    ZeroCount(w, rt, p);
    ReachSelf(w, before, c, true);
    if p.childNum == 0 {
      HoldOneMore(w, marked, held, p);
      Destroy(w, rt, p, false, held + {p}, busy);
      OutcomeIs(w, marked, Dead(w), p, false);
      ReachUp(w, before, Dead(w), c, p);
    }
  }

  /** The loop at the end of `destory`. */
  method DestroyChildren(ghost w: set<Context>, rt: Runtime, c: Context, ghost held: set<Context>, ghost open: set<Context>)
    requires c in w && c in Dead(w) && Tree(w) && Counted(w, rt) && Settled(w, Dead(w), open + {c})
    requires HeldChildless(w, Dead(w), held)
    modifies rt, w`destroyed, w`childNum
    ensures Counted(w, rt) && Settled(w, Dead(w), open)
    ensures Reach(w, old(Dead(w)), Dead(w), c, false)
    decreases AliveIn(w, Dead(w)), 1
  {
    hide Settled, Right, Tree, Childless, Reach, HeldChildless, AliveIn, Outcome;
    ghost var start := Dead(w);
    ReachRefl(w, start, c);
    for i := 0 to |c.children|
      invariant Counted(w, rt) && Settled(w, Dead(w), open + {c}) && Reach(w, start, Dead(w), c, false)
      invariant start <= Dead(w)
      invariant forall j :: 0 <= j < i ==> c.children[j] in Dead(w)
    {
      ghost var mid := Dead(w);
      ChildIsUnder(w, c, c.children[i]);
      NotMore(w, start, mid);
      ChildlessStays(w, start, mid, held);
      Destroy(w, rt, c.children[i], false, held, open + {c});
      OutcomeIs(w, mid, Dead(w), c.children[i], false);
      ReachChild(w, start, mid, Dead(w), c, c.children[i]);
    }
    CloseSettled(w, Dead(w), c, open);
  }

  /** What is destroyed by a call between calls, exactly: everything under the context and, going up, the
      parent if no other child of it was alive. */
  ghost function Doomed(w: set<Context>, dead: set<Context>, c: Context, up: bool): set<Context> {
    if c in dead then {}
    else (set d | d in w && Under(d, c)) + (set d | d in w && up && d == c.parent && Childless(w, dead + {c}, d))
  }

  lemma DoomedDie(w: set<Context>, rt: Runtime, dead: set<Context>, c: Context, up: bool)
    requires Valid(w, rt) && c in w && c in Dead(w)
    requires up && c !in dead && c.parent != null ==> ParentFollows(w, dead + {c}, Dead(w), c)
    ensures Doomed(w, dead, c, up) <= Dead(w)
  {
    forall d | d in Doomed(w, dead, c, up) ensures d in Dead(w) {
      if Under(d, c) {
        SubtreeDead(w, rt, c, d);
      }
    }
  }

  lemma DoomedExactly(w: set<Context>, rt: Runtime, dead: set<Context>, c: Context, up: bool)
    requires Valid(w, rt) && c in w && dead <= w && c in Dead(w)
    requires Reach(w, dead, Dead(w), c, up) && (c in dead ==> Dead(w) == dead)
    requires up && c !in dead && c.parent != null ==> ParentFollows(w, dead + {c}, Dead(w), c)
    ensures Dead(w) == dead + Doomed(w, dead, c, up)
  {
    DoomedDie(w, rt, dead, c, up);
    hide Valid, Childless, Under, ParentFollows;
    assert forall d :: d in Dead(w) && d !in dead ==> d in Doomed(w, dead, c, up);
  }

  /** A call of `destory` from outside: the counts stay right and exactly the doomed contexts die. */
  method DestroyContext(ghost w: set<Context>, rt: Runtime, c: Context, up: bool)
    requires Valid(w, rt) && c in w
    modifies rt, w`destroyed, w`childNum
    ensures Valid(w, rt)
    ensures Dead(w) == old(Dead(w)) + Doomed(w, old(Dead(w)), c, up)
  {
    Destroy(w, rt, c, up, {}, {});
    assert Outcome(w, old(Dead(w)), Dead(w), c, up);
    DoomedExactly(w, rt, old(Dead(w)), c, up);
  }

  // ---------------------------------------------------------------- creation

  ghost function Grown(nums: map<Context, int>, c: Context): map<Context, int> {
    (if c.parent != null && c.parent in nums then nums[c.parent := nums[c.parent] + 1] else nums)[c := 0]
  }

  lemma KidsWith(w: set<Context>, dead: set<Context>, c: Context, x: Context)
    requires c !in w && c !in dead
    ensures |LiveChildren(w + {c}, dead, x)| == |LiveChildren(w, dead, x)| + (if x == c.parent then 1 else 0)
  {
    assert LiveChildren(w + {c}, dead, x) == LiveChildren(w, dead, x) + (if x == c.parent then {c} else {});
  }

  lemma LiveWith(w: set<Context>, dead: set<Context>, c: Context, rt: Runtime)
    requires c !in w && c !in dead && (c.runtime == null || c.runtime == rt)
    ensures |Live(w + {c}, dead, rt)| == |Live(w, dead, rt)| + (if c.runtime == null then 0 else 1)
  {
    assert Live(w + {c}, dead, rt) == Live(w, dead, rt) + (if c.runtime == rt then {c} else {});
  }

  /** A new live context under a member of the tree, counted in on both sides, keeps all counts right. */
  lemma RightWith(w: set<Context>, dead: set<Context>, nums: map<Context, int>, rt: Runtime, counter: int, c: Context)
    requires Right(w, dead, nums, rt, counter) && dead <= w && c !in w && (c.runtime == null || c.runtime == rt)
    requires (forall d :: d in w ==> d.parent != c) && (c.parent != null ==> c.parent in w)
    ensures Right(w + {c}, dead, Grown(nums, c), rt, if c.runtime == null then counter else counter + 1)
  {
    LiveWith(w, dead, c, rt);
    assert LiveChildren(w, dead, c) == {};
    forall x | x in w + {c} ensures Grown(nums, c)[x] == |LiveChildren(w + {c}, dead, x)| {
      KidsWith(w, dead, c, x);
    }
    hide LiveChildren, Live;
    assert Grown(nums, c).Keys == w + {c};
  }

  /** Under the parent's lock the new context joins the parent's list and count. */
  method JoinParent(ghost w: set<Context>, c: Context)
    requires Tree(w) && c !in w && c.children == [] && c.childNum == 0
    requires (forall d :: d in w ==> d.parent != c) && (c.parent != null ==> c.parent in w && c.parent.depth < c.depth)
    modifies w`childNum, w`children
    ensures Tree(w + {c}) && Nums(w + {c}) == Grown(old(Nums(w)), c)
    ensures forall x :: x in w ==> x.children == old(x.children) + (if x == c.parent then [c] else [])
  {
    if c.parent != null {
      c.parent.childNum := c.parent.childNum + 1;
      c.parent.children := c.parent.children + [c];
    }
    assert Nums(w + {c}) == Grown(old(Nums(w)), c);
    forall x | x in w + {c} ensures HangsRight(w + {c}, x) {
      assert x in w ==> old(HangsRight(w, x));
    }
  }

  lemma SettledWith(w: set<Context>, dead: set<Context>, c: Context)
    requires Settled(w, dead, {}) && dead <= w && c !in w && (c.parent != null ==> c.parent !in dead)
    ensures Settled(w + {c}, dead, {})
  {
  }

  /** The constructor call `Context(runtime, parent)` with what it does to the parent. */
  method Create(ghost w: set<Context>, rt: Runtime, counted: bool, parent: Context?) returns (c: Context)
    requires Valid(w, rt)
    requires parent != null ==> parent in w && !parent.destroyed
    modifies rt, w`childNum, w`children
    ensures fresh(c) && c !in w && Valid(w + {c}, rt) && Dead(w + {c}) == old(Dead(w))
    ensures c.parent == parent && c.runtime == (if counted then rt else null) && !c.destroyed
    ensures c.progress == Progress(false, TState({}, {}))
    ensures Nums(w + {c}) == Grown(old(Nums(w)), c)
    ensures rt.counter == old(rt.counter) + (if counted then 1 else 0)
    ensures forall x :: x in w ==> x.children == old(x.children) + (if x == parent then [c] else [])
  {
    hide Right, Settled, Grown;
    assert forall d :: d in w ==> HangsRight(w, d);
    c := new Context(if counted then rt else null, parent);
    RightWith(w, Dead(w), Nums(w), rt, rt.counter, c);
    SettledWith(w, Dead(w), c);
    if counted {
      rt.counter := rt.counter + 1;
    }
    assert Nums(w) == old(Nums(w));
    JoinParent(w, c);
    assert Dead(w + {c}) == old(Dead(w));
  }

  // ---------------------------------------------------------------- completion goes up

  lemma {:induction false} UnderIsShallower(d: Context, c: Context)
    requires Under(d, c)
    ensures c.depth <= d.depth
    decreases d.depth
  {
    if d != c {
      UnderIsShallower(d.parent, c);
    }
  }

  /** `complete`: the context and every ancestor note the completion, and nobody else. */
  method Complete(ghost w: set<Context>, g: Graph, c: Context, task: Task)
    requires g.Valid() && task in g.nodes && Tree(w) && c in w
    modifies w`progress
    ensures forall x :: x in w ==> if Under(c, x) then Noted(g, old(x.progress), x.progress, task) else x.progress == old(x.progress)
    decreases c.depth
  {
    assert HangsRight(w, c);
    CompletesNotes(g, c.progress, task);
    hide Completes, Noted;
    c.progress := Completes(g, c.progress, task);
    if c.parent != null {
      assert !Under(c.parent, c) by {
        if Under(c.parent, c) { UnderIsShallower(c.parent, c); }
      }
      Complete(w, g, c.parent, task);
    }
  }

  // ---------------------------------------------------------------- runs

  /** What holds between calls: the counter is the number of live contexts of the runtime, each child
      count is the number of live children, and below a destroyed context everything is destroyed. */
  lemma ValidMeans(w: set<Context>, rt: Runtime)
    requires Valid(w, rt)
    ensures rt.counter == |set c | c in w && c.runtime == rt && !c.destroyed|
    ensures forall c :: c in w ==> c.childNum == |set d | d in w && d.parent == c && !d.destroyed|
    ensures forall c, d :: c in w && d in w && c.destroyed && Under(d, c) ==> d.destroyed
  {
    assert Live(w, Dead(w), rt) == set c | c in w && c.runtime == rt && !c.destroyed;
    forall c | c in w ensures c.childNum == |set d | d in w && d.parent == c && !d.destroyed| {
      assert Nums(w)[c] == c.childNum;
      assert LiveChildren(w, Dead(w), c) == set d | d in w && d.parent == c && !d.destroyed;
    }
    forall c, d | c in w && d in w && c.destroyed && Under(d, c) ensures d.destroyed {
      SubtreeDead(w, rt, c, d);
    }
  }
}
