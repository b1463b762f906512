/** The queue of contexts (shutils/dag/context_queue.py). */
module ContextQueues {
  import opened Bands
  import opened Options

  /** Fresh numbers lie outside the band they are for, except for the number that the put in progress has
      just used: below the stack's, above those of the others. */
  ghost predicate NumberedAt(p: Priority, band: seq<Entry>, n: int, used: bool) {
    forall f :: f in band ==> (if p == Hot then n < f.sequence else f.sequence < n) || (used && f.sequence == n)
  }

  ghost predicate Numbered(b: Bands<Entry>, counters: map<Priority, int>, pending: Option<Priority>) {
    forall p :: p in counters && NumberedAt(p, b.Band(p), counters[p], pending == Some(p))
  }

  lemma NothingNumbered()
    ensures Numbered(Bands([], [], []), map[Hot := 0, High := 0, Low := 0], None)
  {
    var none: Bands<Entry> := Bands([], [], []);
    forall p ensures p in map[Hot := 0, High := 0, Low := 0] && none.Band(p) == [] {
      match p case Hot => case High => case Low =>
    }
  }

  /** The two parts of the queue's invariant. */
  ghost predicate Good(heap: seq<Entry>, counters: map<Priority, int>, pending: Option<Priority>, b: Bands<Entry>, history: seq<Event>) {
    Stands(true, heap, b, history) && Numbered(b, counters, pending)
  }

  lemma GoodInsert(heap: seq<Entry>, counters: map<Priority, int>, b: Bands<Entry>, history: seq<Event>, e: Entry)
    requires Good(heap, counters, None, b, history) && e.priority in counters && e.sequence == counters[e.priority]
    ensures Good(heap + [e], counters, Some(e.priority), b.Pushed(e.priority, e, e.priority == Hot), history + [Put(e.priority, e.item)])
  {
    NumberedInsert(b, counters, e.priority, e);
    StandsMore(true, heap, b, history, e, e.priority == Hot);
  }

  lemma NumberedInsert(b: Bands<Entry>, counters: map<Priority, int>, p: Priority, e: Entry)
    requires Numbered(b, counters, None) && e.priority == p && e.sequence == counters[p]
    ensures Fits(b.Band(p), e, p == Hot)
    ensures Numbered(b.Pushed(p, e, p == Hot), counters, Some(p))
  {
    assert NumberedAt(p, b.Band(p), counters[p], false);
    forall q ensures NumberedAt(q, b.Pushed(p, e, p == Hot).Band(q), counters[q], q == p) {
      assert NumberedAt(q, b.Band(q), counters[q], false);
    }
  }

  lemma NumberedAdvance(b: Bands<Entry>, counters: map<Priority, int>, p: Priority)
    requires Numbered(b, counters, Some(p))
    ensures Numbered(b, counters[p := counters[p] + (if p == Hot then -1 else 1)], None)
  {
    var counters' := counters[p := counters[p] + (if p == Hot then -1 else 1)];
    forall q ensures NumberedAt(q, b.Band(q), counters'[q], false) {
      assert NumberedAt(q, b.Band(q), counters[q], q == p);
    }
  }

  lemma NumberedRest(b: Bands<Entry>, counters: map<Priority, int>, pending: Option<Priority>)
    requires Numbered(b, counters, pending) && !b.IsEmpty()
    ensures Numbered(b.Rest(), counters, pending)
  {
    forall q ensures NumberedAt(q, b.Rest().Band(q), counters[q], pending == Some(q)) {
      assert NumberedAt(q, b.Band(q), counters[q], pending == Some(q));
      assert b.Rest().Band(q) == b.Band(q) || b.Rest().Band(q) == b.Band(q)[1..];
    }
  }

  class ContextQueue {
    var heap: seq<Entry>
    var counters: map<Priority, int>
    ghost var pending: Option<Priority>
    ghost var bands: Bands<Entry>
    ghost var history: seq<Event>

    ghost predicate Valid()
      reads this
    {
      Good(heap, counters, pending, bands, history)
    }

    /** The queued items, band by band, in the order in which they will be handed out. */
    ghost function Contents(): Bands<Item>
      reads this
    {
      Items(bands)
    }

    constructor ()
      ensures Valid() && pending.None? && history == [] && Contents() == Bands([], [], [])
    {
      heap := [];
      counters := map[Hot := 0, High := 0, Low := 0];
      pending, bands, history := None, Bands([], [], []), [];
      NothingQueued();
      NothingNumbered();
    }

    /** `put`, up to the moment the item is in the heap. */
    method Insert(p: Priority, x: Item)
      requires Valid() && pending.None?
      modifies this
      ensures Valid() && pending == Some(p) && history == old(history) + [Put(p, x)]
      ensures Contents() == old(Contents()).Pushed(p, x, p == Hot)
    {
      var e := Entry(p, counters[p], x);
      GoodInsert(heap, counters, bands, history, e);
      hide Good;
      heap := heap + [e];
      bands := bands.Pushed(p, e, p == Hot);
      pending := Some(p);
      history := history + [Put(p, x)];
    }

    /** The rest of `put`: the stack's numbers go down, the others up. */
    method Advance(p: Priority)
      requires Valid() && pending == Some(p)
      modifies this
      ensures Valid() && pending.None? && history == old(history) && Contents() == old(Contents())
    {
      NumberedAdvance(bands, counters, p);
      hide Stands, Numbered;
      counters := counters[p := counters[p] + (if p == Hot then -1 else 1)];
      pending := None;
    }

    lemma ContentsSize()
      requires Valid()
      ensures |heap| == |Contents().hot + Contents().high + Contents().low|
    {
      assert |multiset(heap)| == |heap|;
      assert |Bag(bands)| == |bands.hot| + |bands.high| + |bands.low|;
    }

    /** Both turns of `put`. */
    method PutItem(p: Priority, x: Item)
      requires Valid() && pending.None?
      modifies this
      ensures Valid() && pending.None? && history == old(history) + [Put(p, x)]
      ensures Contents() == old(Contents()).Pushed(p, x, p == Hot)
    {
      Insert(p, x);
      Advance(p);
    }

    /** `get`; None stands for a caller that parks on the empty queue. */
    method TryGet() returns (r: Option<Item>)
      requires Valid()
      modifies this
      ensures Valid() && pending == old(pending) && history == old(history) + [Get]
      ensures ServeAll(true, history).answers == ServeAll(true, old(history)).answers + [r]
      ensures old(Contents()).IsEmpty() ==> r.None? && Contents() == old(Contents())
      ensures !old(Contents()).IsEmpty() ==> r == Some(old(Contents()).First()) && Contents() == old(Contents()).Rest()
    {
      hide Stands, Numbered, IsLeast, Items;
      ghost var before := history;
      history := history + [Get];
      if |heap| == 0 {
        StandsEmpty(true, bands, before);
        return None;
      }
      ghost var least := LeastExists(heap);
      var k: nat :| k < |heap| && IsLeast(heap, k);
      StandsLess(true, heap, k, bands, before);
      NumberedRest(bands, counters, pending);
      r := Some(heap[k].item);
      heap := Without(heap, k);
      bands := bands.Rest();
    }
  }

  /** The order in which things happened: an item is in when its first turn ends. */
  function Linear(script: seq<Act>): seq<Event> {
    if |script| == 0 then []
    else
      var before := Linear(script[..|script| - 1]);
      match script[|script| - 1]
      case BeginPut(p, x) => before + [Put(p, x)]
      case EndPut => before
      case TakeOne => before + [Get]
  }

  /** Any interleaving of puts and gets is answered as one stack, then one FIFO, then another would. */
  method Drive(script: seq<Act>) returns (answers: seq<Option<Item>>)
    requires !LockAfter(script).Broken?
    ensures answers == ServeAll(true, Linear(script)).answers
  {
    var q := new ContextQueue();
    var putting := Hot;
    answers := [];
    assert ServeAll(true, []).answers == [];
    hide Good, ServeAll;
    for i := 0 to |script|
      invariant fresh(q) && q.Valid() && q.history == Linear(script[..i])
      invariant answers == ServeAll(true, q.history).answers
      invariant match LockAfter(script[..i]) case Free => q.pending.None? case Taken(p, _) => q.pending == Some(p) && putting == p case Broken => false
    {
      PrefixAllowed(script, i + 1);
      assert script[..i + 1][..i] == script[..i];
      match script[i]
      case BeginPut(p, x) =>
        q.Insert(p, x);
        putting := p;
      case EndPut => q.Advance(putting);
      case TakeOne =>
        var r := q.TryGet();
        answers := answers + [r];
    }
    assert script[..|script|] == script;
  }
}
