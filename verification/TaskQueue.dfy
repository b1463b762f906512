/** The queue of tasks (shutils/dag/task_queue.py). */
module TaskQueues {
  import opened Bands
  import opened Options

  /** Numbers in use lie below the fresh ones, and the number taken for the put in progress above its band. */
  ghost predicate NumberedAt(band: seq<Entry>, n: int) {
    forall f :: f in band ==> f.sequence < n
  }

  ghost predicate Numbered(b: Bands<Entry>, counters: map<Priority, int>, pending: Option<Entry>) {
    && (forall p :: p in counters && NumberedAt(b.Band(p), counters[p]))
    && (pending.Some? ==>
          var e := pending.value;
          e.sequence < counters[e.priority] && NumberedAt(b.Band(e.priority), e.sequence))
  }

  lemma NothingNumbered()
    ensures Numbered(Bands([], [], []), map[Hot := 0, High := 0, Low := 0], None)
  {
    var none: Bands<Entry> := Bands([], [], []);
    forall p ensures p in map[Hot := 0, High := 0, Low := 0] && none.Band(p) == [] {
      match p case Hot => case High => case Low =>
    }
  }

  lemma NumberedReserve(b: Bands<Entry>, counters: map<Priority, int>, e: Entry)
    requires Numbered(b, counters, None) && e.sequence == counters[e.priority]
    ensures Numbered(b, counters[e.priority := e.sequence + 1], Some(e))
  {
    forall q ensures NumberedAt(b.Band(q), counters[e.priority := e.sequence + 1][q]) {
      assert NumberedAt(b.Band(q), counters[q]);
    }
  }

  lemma NumberedInsert(b: Bands<Entry>, counters: map<Priority, int>, e: Entry)
    requires Numbered(b, counters, Some(e))
    ensures Fits(b.Band(e.priority), e, false)
    ensures Numbered(b.Pushed(e.priority, e, false), counters, None)
  {
    forall q ensures NumberedAt(b.Pushed(e.priority, e, false).Band(q), counters[q]) {
      assert NumberedAt(b.Band(q), counters[q]);
    }
  }

  lemma NumberedRest(b: Bands<Entry>, counters: map<Priority, int>, pending: Option<Entry>)
    requires Numbered(b, counters, pending) && !b.IsEmpty()
    ensures Numbered(b.Rest(), counters, pending)
  {
    forall q ensures NumberedAt(b.Rest().Band(q), counters[q]) {
      assert NumberedAt(b.Band(q), counters[q]);
      assert b.Rest().Band(q) == b.Band(q) || b.Rest().Band(q) == b.Band(q)[1..];
    }
  }

  class TaskPriorityQueue {
    var heap: seq<Entry>
    var counters: map<Priority, int>
    ghost var pending: Option<Entry>
    ghost var bands: Bands<Entry>
    ghost var history: seq<Event>

    ghost predicate Valid()
      reads this
    {
      Stands(false, heap, bands, history) && Numbered(bands, counters, pending)
    }

    constructor ()
      ensures Valid() && pending.None? && history == []
    {
      heap := [];
      counters := map[Hot := 0, High := 0, Low := 0];
      pending, bands, history := None, Bands([], [], []), [];
      NothingQueued();
      NothingNumbered();
    }

    /** `async_put_task`, up to the moment the number is taken. */
    method Reserve(p: Priority, x: Item) returns (e: Entry)
      requires Valid() && pending.None?
      modifies this
      ensures Valid() && pending == Some(e) && e.priority == p && e.item == x && history == old(history)
    {
      hide Stands, NumberedAt;
      assert p in counters && Numbered(bands, counters, None);
      hide Numbered;
      e := Entry(p, counters[p], x);
      NumberedReserve(bands, counters, e);
      counters := counters[p := counters[p] + 1];
      pending := Some(e);
    }

    /** The rest: the item goes into the heap. */
    method Insert(e: Entry)
      requires Valid() && pending == Some(e)
      modifies this
      ensures Valid() && pending.None? && history == old(history) + [Put(e.priority, e.item)]
    {
      hide Stands, Numbered, Fits;
      NumberedInsert(bands, counters, e);
      StandsMore(false, heap, bands, history, e, false);
      heap := heap + [e];
      bands := bands.Pushed(e.priority, e, false);
      history := history + [Put(e.priority, e.item)];
      pending := None;
    }

    /** `async_get_task`; None stands for a caller that parks on the empty queue. */
    method TryGet() returns (r: Option<Item>)
      requires Valid()
      modifies this
      ensures Valid() && pending == old(pending) && history == old(history) + [Get]
      ensures ServeAll(false, history).answers == ServeAll(false, old(history)).answers + [r]
    {
      hide Stands, Numbered, IsLeast;
      ghost var before := history;
      history := history + [Get];
      if |heap| == 0 {
        StandsEmpty(false, bands, before);
        return None;
      }
      ghost var least := LeastExists(heap);
      var k: nat :| k < |heap| && IsLeast(heap, k);
      StandsLess(false, heap, k, bands, before);
      NumberedRest(bands, counters, pending);
      r := Some(heap[k].item);
      heap := Without(heap, k);
      bands := bands.Rest();
    }
  }

  /** The order in which things happened: an item is in when its second turn ends. */
  function Linear(script: seq<Act>): seq<Event> {
    if |script| == 0 then []
    else
      var before := Linear(script[..|script| - 1]);
      match script[|script| - 1]
      case BeginPut(p, x) => before
      case EndPut =>
        (match LockAfter(script[..|script| - 1])
         case Taken(p, x) => before + [Put(p, x)]
         case _ => before)
      case TakeOne => before + [Get]
  }

  /** Any interleaving of puts and gets is answered as three FIFOs in a row would: the numbers only rise,
      so that the band called LIFO_HIGH is a FIFO too. */
  method Drive(script: seq<Act>) returns (answers: seq<Option<Item>>)
    requires !LockAfter(script).Broken?
    ensures answers == ServeAll(false, Linear(script)).answers
  {
    var q := new TaskPriorityQueue();
    var hand: Option<Entry> := None;
    answers := [];
    assert ServeAll(false, []).answers == [];
    hide Stands, Numbered, ServeAll;
    for i := 0 to |script|
      invariant fresh(q) && q.Valid() && q.history == Linear(script[..i]) && q.pending == hand
      invariant answers == ServeAll(false, q.history).answers
      invariant match LockAfter(script[..i])
        case Free => hand.None?
        case Taken(p, x) => hand.Some? && hand.value.priority == p && hand.value.item == x
        case Broken => false
    {
      PrefixAllowed(script, i + 1);
      assert script[..i + 1][..i] == script[..i];
      match script[i]
      case BeginPut(p, x) =>
        var e := q.Reserve(p, x);
        hand := Some(e);
      case EndPut =>
        q.Insert(hand.value);
        hand := None;
      case TakeOne =>
        var r := q.TryGet();
        answers := answers + [r];
    }
    assert script[..|script|] == script;
  }

  // ---------------------------------------------------------------- a stack or a FIFO at top priority

  function Rev(s: seq<Item>): seq<Item> {
    if |s| == 0 then [] else Rev(s[1..]) + [s[0]]
  }

  lemma {:induction false} RevSnoc(s: seq<Item>, x: Item)
    ensures Rev(s + [x]) == [x] + Rev(s)
  {
    if s == [] {
      assert [x][1..] == [];
    } else {
      assert (s + [x])[1..] == s[1..] + [x];
      RevSnoc(s[1..], x);
    }
  }

  lemma {:induction false} RevEnds(s: seq<Item>)
    ensures |Rev(s)| == |s| && (s != [] ==> Rev(s)[0] == s[|s| - 1])
  {
    if s != [] { RevEnds(s[1..]); }
  }

  /** A get that finds two or more items in the first band. */
  ghost predicate CrowdedAt(history: seq<Event>, i: int) {
    0 <= i < |history| && history[i].Get? && |ServeAll(false, history[..i]).bands.hot| >= 2
  }

  ghost predicate Crowded(history: seq<Event>) { exists i :: CrowdedAt(history, i) }

  /** The two disciplines have answered alike and hold the same items, the first band in opposite orders. */
  ghost predicate Mirrored(history: seq<Event>) {
    var a, b := ServeAll(true, history), ServeAll(false, history);
    && a.answers == b.answers && a.bands.high == b.bands.high && a.bands.low == b.bands.low
    && a.bands.hot == Rev(b.bands.hot)
  }

  lemma MirroredStep(history: seq<Event>, e: Event)
    requires Mirrored(history) && (e.Get? ==> |ServeAll(false, history).bands.hot| <= 1)
    ensures Mirrored(history + [e])
  {
    ServeSnoc(true, history, e);
    ServeSnoc(false, history, e);
    var hot := ServeAll(false, history).bands.hot;
    RevEnds(hot);
    if e.Put? {
      RevSnoc(hot, e.x);
    } else if |hot| == 1 {
      assert hot[1..] == [] && Rev(hot)[1..] == [];
    }
  }

  lemma {:induction false} UncrowdedMirrored(history: seq<Event>)
    requires !Crowded(history)
    ensures Mirrored(history)
    decreases |history|
  {
    hide ServeAll;
    if history == [] {
      NothingMirrored();
    } else {
      var n := |history| - 1;
      var before := history[..n];
      forall i | CrowdedAt(before, i) ensures CrowdedAt(history, i) {
        assert before[..i] == history[..i];
      }
      assert !CrowdedAt(history, n);
      hide Mirrored;
      UncrowdedMirrored(before);
      MirroredStep(before, history[n]);
      assert history == before + [history[n]];
    }
  }

  lemma NothingMirrored()
    ensures Mirrored([])
  {
  }

  /** Answers given stay given. */
  lemma {:induction false} AnswersStay(stack: bool, history: seq<Event>, i: nat)
    requires i <= |history|
    ensures ServeAll(stack, history[..i]).answers <= ServeAll(stack, history).answers
    decreases |history|
  {
    if i == |history| {
      assert history[..i] == history;
    } else {
      var before := history[..|history| - 1];
      AnswersStay(stack, before, i);
      assert before[..i] == history[..i];
    }
  }

  function PutItems(history: seq<Event>): set<Item> {
    set e | e in history && e.Put? :: e.x
  }

  ghost predicate NoRepeats(s: seq<Item>) {
    forall i, j :: 0 <= i < j < |s| ==> s[i] != s[j]
  }

  lemma LastPutIsNew(history: seq<Event>)
    requires history != [] && DistinctPuts(history)
    ensures var before, last := history[..|history| - 1], history[|history| - 1];
      && DistinctPuts(before) && (last.Put? ==> last.x !in PutItems(before))
      && PutItems(history) == PutItems(before) + (if last.Put? then {last.x} else {})
  {
    var before, last := history[..|history| - 1], history[|history| - 1];
    assert history == before + [last];
  }

  /** What waits in the first band was put, and no item twice. */
  lemma {:induction false} HotWasPut(history: seq<Event>)
    requires DistinctPuts(history)
    ensures var hot := ServeAll(false, history).bands.hot;
      NoRepeats(hot) && forall x :: x in hot ==> x in PutItems(history)
    decreases |history|
  {
    if history != [] {
      LastPutIsNew(history);
      HotWasPut(history[..|history| - 1]);
      hide PutItems, DistinctPuts;
    }
  }

  /** The first crowded get, if there is one. */
  lemma {:induction false} FirstCrowded(history: seq<Event>, n: nat) returns (i: nat)
    requires CrowdedAt(history, n)
    ensures CrowdedAt(history, i) && !Crowded(history[..i])
    decreases n
  {
    i := n;
    if Crowded(history[..n]) {
      var k :| CrowdedAt(history[..n], k);
      assert history[..n][..k] == history[..k];
      i := FirstCrowded(history, k);
    }
  }

  /** For distinct items: the task queue, whose band LIFO_HIGH is a FIFO, answers as a queue with a stack there would
      exactly as long as no get finds two items or more in that band. */
  lemma SameAsStackIff(history: seq<Event>)
    requires DistinctPuts(history)
    ensures ServeAll(true, history).answers == ServeAll(false, history).answers <==> !Crowded(history)
  {
    if !Crowded(history) {
      UncrowdedMirrored(history);
    } else {
      var n :| CrowdedAt(history, n);
      var i := FirstCrowded(history, n);
      CrowdedAnswersDiffer(history, i);
    }
  }

  /** At a crowded get the stack hands out the newest item, the FIFO the oldest. */
  lemma CrowdedGet(before: seq<Event>) returns (newest: Item, oldest: Item)
    requires Mirrored(before) && DistinctPuts(before) && |ServeAll(false, before).bands.hot| >= 2
    ensures newest != oldest
    ensures ServeAll(true, before + [Get]).answers == ServeAll(false, before).answers + [Some(newest)]
    ensures ServeAll(false, before + [Get]).answers == ServeAll(false, before).answers + [Some(oldest)]
  {
    var hot := ServeAll(false, before).bands.hot;
    HotWasPut(before);
    RevEnds(hot);
    ServeSnoc(true, before, Get);
    ServeSnoc(false, before, Get);
    newest, oldest := hot[|hot| - 1], hot[0];
  }

  lemma CrowdedAnswersDiffer(history: seq<Event>, i: nat)
    requires DistinctPuts(history) && CrowdedAt(history, i) && !Crowded(history[..i])
    ensures ServeAll(true, history).answers != ServeAll(false, history).answers
  {
    hide ServeAll, Mirrored, Crowded;
    var before := history[..i];
    assert DistinctPuts(before);
    hide DistinctPuts;
    assert history[..i + 1] == before + [Get];
    UncrowdedMirrored(before);
    var newest, oldest := CrowdedGet(before);
    AnswersStay(true, history, i + 1);
    AnswersStay(false, history, i + 1);
    DifferFrom(ServeAll(false, before).answers, Some(newest), Some(oldest), ServeAll(true, history).answers,
               ServeAll(false, history).answers);
  }

  lemma DifferFrom<T>(common: seq<T>, x: T, y: T, a: seq<T>, b: seq<T>)
    requires common + [x] <= a && common + [y] <= b && x != y
    ensures a != b
  {
    assert (common + [x])[|common|] == x && (common + [y])[|common|] == y;
  }
}
