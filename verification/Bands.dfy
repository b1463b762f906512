/** What the priority queues of contexts and of tasks are meant to be: three bands served in order. */
module Bands {
  import opened Options

  /** A context, or a context with one of its tasks, by number. */
  type Item = nat

  datatype Priority = Hot | High | Low

  function Rank(p: Priority): nat { match p case Hot => 0 case High => 1 case Low => 2 }

  /** Each band lists its items in the order in which they will be handed out. */
  datatype Bands<T> = Bands(hot: seq<T>, high: seq<T>, low: seq<T>) {
    function Band(p: Priority): seq<T> { match p case Hot => hot case High => high case Low => low }

    function With(p: Priority, s: seq<T>): Bands<T> {
      match p case Hot => this.(hot := s) case High => this.(high := s) case Low => this.(low := s)
    }

    predicate IsEmpty() { |hot| == |high| == |low| == 0 }

    function Serving(): Priority { if |hot| > 0 then Hot else if |high| > 0 then High else Low }

    function First(): T
      requires !IsEmpty()
    {
      Band(Serving())[0]
    }

    function Rest(): Bands<T>
      requires !IsEmpty()
    {
      With(Serving(), Band(Serving())[1..])
    }

    /** A stack puts in front, a FIFO at the back. */
    function Pushed(p: Priority, x: T, front: bool): Bands<T> {
      With(p, Extended(Band(p), x, front))
    }
  }

  // ---------------------------------------------------------------- keys

  datatype Entry = Entry(priority: Priority, sequence: int, item: Item)

  predicate Leq(e: Entry, f: Entry) {
    Rank(e.priority) < Rank(f.priority) || (e.priority == f.priority && e.sequence <= f.sequence)
  }

  /** What heappop removes: an entry no larger than any other; with equal keys it might be any of them. */
  predicate IsLeast(heap: seq<Entry>, k: nat) {
    k < |heap| && forall j :: 0 <= j < |heap| ==> Leq(heap[k], heap[j])
  }

  lemma {:induction false} LeastExists(heap: seq<Entry>) returns (k: nat)
    requires heap != []
    ensures IsLeast(heap, k)
    decreases |heap|
  {
    var last := |heap| - 1;
    if last == 0 {
      k := 0;
    } else {
      k := LeastExists(heap[..last]);
      forall j | 0 <= j < last ensures Leq(heap[k], heap[j]) {
        assert heap[..last][j] == heap[j];
      }
      if Leq(heap[last], heap[k]) {
        k := last;
      }
    }
  }

  /** Sequence numbers strictly rise along a band, so no key occurs twice. */
  ghost predicate Rising(p: Priority, s: seq<Entry>) {
    && (forall i :: 0 <= i < |s| ==> s[i].priority == p)
    && (forall i, j :: 0 <= i < j < |s| ==> s[i].sequence < s[j].sequence)
  }

  ghost predicate Keyed(b: Bands<Entry>) {
    forall p :: Rising(p, b.Band(p))
  }

  ghost function Bag(b: Bands<Entry>): multiset<Entry> {
    multiset(b.hot) + multiset(b.high) + multiset(b.low)
  }

  function ItemsOf(s: seq<Entry>): seq<Item> {
    seq(|s|, i requires 0 <= i < |s| => s[i].item)
  }

  function Items(b: Bands<Entry>): Bands<Item> {
    Bands(ItemsOf(b.hot), ItemsOf(b.high), ItemsOf(b.low))
  }

  function Without(heap: seq<Entry>, k: nat): seq<Entry>
    requires k < |heap|
  {
    heap[..k] + heap[k + 1..]
  }

  lemma BagHas(b: Bands<Entry>, e: Entry)
    ensures e in Bag(b) <==> e in b.hot || e in b.high || e in b.low
  {
  }

  lemma LeastIsHead(heap: seq<Entry>, k: nat, b: Bands<Entry>)
    requires Keyed(b) && multiset(heap) == Bag(b) && IsLeast(heap, k)
    ensures !b.IsEmpty() && heap[k] == b.First()
  {
    var e := heap[k];
    assert Rising(Hot, b.Band(Hot)) && Rising(High, b.Band(High)) && Rising(Low, b.Band(Low));
    BagHas(b, e);
    assert e in multiset(heap);
    var f := b.First();
    BagHas(b, f);
    assert f in multiset(heap);
    assert Leq(e, f);
    assert e.priority == b.Serving();
  }

  /** Whichever least entry heappop removes, it is the first item of the bands. */
  lemma LeastIsFirst(heap: seq<Entry>, k: nat, b: Bands<Entry>)
    requires Keyed(b) && multiset(heap) == Bag(b) && IsLeast(heap, k)
    ensures !b.IsEmpty() && heap[k] == b.First()
    ensures multiset(Without(heap, k)) == Bag(b.Rest()) && Keyed(b.Rest())
    ensures Items(b.Rest()) == Items(b).Rest() && heap[k].item == Items(b).First()
  {
    LeastIsHead(heap, k, b);
    hide Keyed, IsLeast, Bag, Items;
    RestBag(b);
    RestKeyed(b);
    RestItems(b);
    WithoutBag(heap, k);
    SameLess(multiset(Without(heap, k)), Bag(b.Rest()), heap[k]);
  }

  lemma SameLess(m: multiset<Entry>, n: multiset<Entry>, x: Entry)
    requires m + multiset{x} == multiset{x} + n
    ensures m == n
  {
    forall y ensures m[y] == n[y] {
      assert (m + multiset{x})[y] == (multiset{x} + n)[y];
    }
  }

  lemma WithoutBag(heap: seq<Entry>, k: nat)
    requires k < |heap|
    ensures multiset(heap) == multiset(Without(heap, k)) + multiset{heap[k]}
  {
    assert heap == heap[..k] + [heap[k]] + heap[k + 1..];
  }

  lemma RestBag(b: Bands<Entry>)
    requires !b.IsEmpty()
    ensures Bag(b) == multiset{b.First()} + Bag(b.Rest())
  {
    var s := b.Band(b.Serving());
    assert s == [s[0]] + s[1..];
  }

  lemma RestKeyed(b: Bands<Entry>)
    requires !b.IsEmpty() && Keyed(b)
    ensures Keyed(b.Rest())
  {
    forall p ensures Rising(p, b.Rest().Band(p)) {
      assert Rising(p, b.Band(p));
    }
  }

  lemma RestItems(b: Bands<Entry>)
    requires !b.IsEmpty()
    ensures !Items(b).IsEmpty() && Items(b.Rest()) == Items(b).Rest() && b.First().item == Items(b).First()
  {
    var s := b.Band(b.Serving());
    assert ItemsOf(s[1..]) == ItemsOf(s)[1..];
  }

  function Extended<T>(s: seq<T>, x: T, front: bool): seq<T> {
    if front then [x] + s else s + [x]
  }

  ghost predicate Fits(s: seq<Entry>, e: Entry, front: bool) {
    forall f :: f in s ==> if front then e.sequence < f.sequence else f.sequence < e.sequence
  }

  lemma RisingExtended(p: Priority, s: seq<Entry>, e: Entry, front: bool)
    requires Rising(p, s) && e.priority == p && Fits(s, e, front)
    ensures Rising(p, Extended(s, e, front))
  {
  }

  /** A key below all of its band goes in front, a key above all of it at the back. */
  lemma PushedKeyed(b: Bands<Entry>, e: Entry, front: bool)
    requires Keyed(b) && Fits(b.Band(e.priority), e, front)
    ensures Keyed(b.Pushed(e.priority, e, front))
  {
    forall p ensures Rising(p, b.Pushed(e.priority, e, front).Band(p)) {
      assert Rising(p, b.Band(p));
      if p == e.priority {
        RisingExtended(p, b.Band(p), e, front);
      }
      hide Rising;
    }
  }

  lemma ExtendedBag(s: seq<Entry>, x: Entry, front: bool)
    ensures multiset(Extended(s, x, front)) == multiset(s) + multiset{x}
  {
  }

  lemma PushedBag(b: Bands<Entry>, e: Entry, front: bool)
    ensures Bag(b.Pushed(e.priority, e, front)) == Bag(b) + multiset{e}
  {
    ExtendedBag(b.Band(e.priority), e, front);
    hide Extended;
    match e.priority case Hot => case High => case Low =>
  }

  lemma PushedItems(b: Bands<Entry>, e: Entry, front: bool)
    ensures Items(b.Pushed(e.priority, e, front)) == Items(b).Pushed(e.priority, e.item, front)
  {
    assert ItemsOf(Extended(b.Band(e.priority), e, front)) == Extended(ItemsOf(b.Band(e.priority)), e.item, front);
  }

  ghost predicate Represents(heap: seq<Entry>, b: Bands<Entry>) {
    multiset(heap) == Bag(b) && Keyed(b)
  }

  lemma RepresentsMore(heap: seq<Entry>, b: Bands<Entry>, e: Entry, front: bool)
    requires Represents(heap, b) && Fits(b.Band(e.priority), e, front)
    ensures Represents(heap + [e], b.Pushed(e.priority, e, front))
    ensures Items(b.Pushed(e.priority, e, front)) == Items(b).Pushed(e.priority, e.item, front)
  {
    PushedKeyed(b, e, front);
    PushedItems(b, e, front);
    PushedBag(b, e, front);
    hide Keyed, Bag, Items;
  }

  lemma RepresentsLess(heap: seq<Entry>, k: nat, b: Bands<Entry>)
    requires Represents(heap, b) && IsLeast(heap, k)
    ensures !b.IsEmpty() && Represents(Without(heap, k), b.Rest())
    ensures Items(b.Rest()) == Items(b).Rest() && heap[k].item == Items(b).First() && !Items(b).IsEmpty()
  {
    LeastIsFirst(heap, k, b);
  }

  lemma EmptyHeap(b: Bands<Entry>)
    requires Represents([], b)
    ensures Items(b).IsEmpty()
  {
    assert |Bag(b)| == |b.hot| + |b.high| + |b.low|;
  }

  lemma NothingQueued()
    ensures Represents([], Bands([], [], []))
  {
    var none: Bands<Entry> := Bands([], [], []);
    assert forall p :: Rising(p, none.Band(p));
  }

  // ---------------------------------------------------------------- histories

  /** What has happened to a queue, in the order in which items went in and out. */
  datatype Event = Put(p: Priority, x: Item) | Get

  /** The bands, and the answers so far, of a history; `stack` says that the first band is a stack. */
  datatype Served = Served(bands: Bands<Item>, answers: seq<Option<Item>>)

  function Serve(stack: bool, s: Served, e: Event): Served {
    match e
    case Put(p, x) => s.(bands := s.bands.Pushed(p, x, stack && p == Hot))
    case Get =>
      if s.bands.IsEmpty() then s.(answers := s.answers + [None])
      else Served(s.bands.Rest(), s.answers + [Some(s.bands.First())])
  }

  function ServeAll(stack: bool, history: seq<Event>): Served {
    if |history| == 0 then Served(Bands([], [], []), [])
    else Serve(stack, ServeAll(stack, history[..|history| - 1]), history[|history| - 1])
  }

  lemma ServeSnoc(stack: bool, history: seq<Event>, e: Event)
    ensures ServeAll(stack, history + [e]) == Serve(stack, ServeAll(stack, history), e)
  {
    assert (history + [e])[..|history|] == history;
  }

  // ---------------------------------------------------------------- which item a get is answered with

  ghost predicate DistinctPuts(history: seq<Event>) {
    forall i, j :: 0 <= i < j < |history| && history[i].Put? && history[j].Put? ==> history[i].x != history[j].x
  }

  ghost predicate PutAt(history: seq<Event>, p: Priority, x: Item, i: int) {
    0 <= i < |history| && history[i] == Put(p, x)
  }

  ghost predicate Handed(stack: bool, history: seq<Event>, x: Item) {
    Some(x) in ServeAll(stack, history).answers
  }

  /** x was put with priority p and has not been handed out. */
  ghost predicate Waits(stack: bool, history: seq<Event>, p: Priority, x: Item) {
    (exists i :: PutAt(history, p, x, i)) && !Handed(stack, history, x)
  }

  /** Of two items of one priority: in a stack the later put goes first, otherwise the earlier. */
  predicate Sooner(stack: bool, p: Priority, i: int, j: int) { if stack && p == Hot then i > j else i < j }

  /** The bands hold exactly what waits, in the order in which it is to be handed out, and only what was put is handed out. */
  ghost predicate Orderly(stack: bool, history: seq<Event>) {
    && (forall p, x :: x in ServeAll(stack, history).bands.Band(p) <==> Waits(stack, history, p, x))
    && (forall p :: InTurn(stack, history, p, ServeAll(stack, history).bands.Band(p)))
    && (forall x :: Handed(stack, history, x) ==> exists p, i :: PutAt(history, p, x, i))
  }

  ghost predicate InTurn(stack: bool, history: seq<Event>, p: Priority, band: seq<Item>) {
    forall k, l, i, j :: 0 <= k < l < |band| && PutAt(history, p, band[k], i) && PutAt(history, p, band[l], j) ==>
      Sooner(stack, p, i, j)
  }

  lemma PutAtSnoc(history: seq<Event>, e: Event)
    ensures forall p, x, i :: PutAt(history + [e], p, x, i) <==> PutAt(history, p, x, i) || (i == |history| && e == Put(p, x))
  {
  }

  lemma OnePut(history: seq<Event>, p: Priority, q: Priority, x: Item, i: int, j: int)
    requires DistinctPuts(history) && PutAt(history, p, x, i) && PutAt(history, q, x, j)
    ensures i == j && p == q
  {
  }

  lemma PutOrderly(stack: bool, history: seq<Event>, q: Priority, y: Item)
    requires Orderly(stack, history) && DistinctPuts(history + [Put(q, y)])
    ensures Orderly(stack, history + [Put(q, y)])
  {
    var h, e := history + [Put(q, y)], Put(q, y);
    var b, b' := ServeAll(stack, history).bands, ServeAll(stack, h).bands;
    ServeSnoc(stack, history, e);
    PutAtSnoc(history, e);
    forall p, i ensures !PutAt(history, p, y, i) {
      if PutAt(history, p, y, i) {
        assert PutAt(h, p, y, i) && PutAt(h, q, y, |history|);
        OnePut(h, p, q, y, i, |history|);
      }
    }
    assert PutAt(h, q, y, |history|) && !Handed(stack, history, y);
    assert forall x :: Handed(stack, h, x) <==> Handed(stack, history, x);
    hide ServeAll, Handed;
    forall p, x ensures x in b'.Band(p) <==> Waits(stack, h, p, x) {
      assert x in b.Band(p) <==> Waits(stack, history, p, x);
      PutWaits(stack, history, q, y, p, x);
    }
    forall p ensures InTurn(stack, h, p, b'.Band(p)) {
      assert InTurn(stack, history, p, b.Band(p));
      forall k, l, i, j | 0 <= k < l < |b'.Band(p)| && PutAt(h, p, b'.Band(p)[k], i) && PutAt(h, p, b'.Band(p)[l], j)
        ensures Sooner(stack, p, i, j)
      {
        if p == q {
          NewInTurn(stack, history, p, b.Band(p), y, k, l, i, j);
        }
      }
    }
  }

  lemma PutWaits(stack: bool, history: seq<Event>, q: Priority, y: Item, p: Priority, x: Item)
    requires !Handed(stack, history, y) && forall r, i :: !PutAt(history, r, y, i)
    requires Handed(stack, history + [Put(q, y)], x) <==> Handed(stack, history, x)
    ensures Waits(stack, history + [Put(q, y)], p, x) <==> Waits(stack, history, p, x) || (p == q && x == y)
  {
    PutAtSnoc(history, Put(q, y));
    hide Handed;
    if p == q && x == y { assert PutAt(history + [Put(q, y)], q, y, |history|); }
    if Waits(stack, history, p, x) {
      var i :| PutAt(history, p, x, i);
      assert PutAt(history + [Put(q, y)], p, x, i);
    }
  }

  lemma NewInTurn(stack: bool, history: seq<Event>, p: Priority, band: seq<Item>, y: Item, k: int, l: int, i: int, j: int)
    requires InTurn(stack, history, p, band) && forall i :: !PutAt(history, p, y, i)
    requires var b, h := Extended(band, y, stack && p == Hot), history + [Put(p, y)];
      0 <= k < l < |b| && PutAt(h, p, b[k], i) && PutAt(h, p, b[l], j) && DistinctPuts(h) && y !in band
    ensures Sooner(stack, p, i, j)
  {
    PutAtSnoc(history, Put(p, y));
    if stack && p == Hot {
      if k == 0 {
        assert i == |history|;
        assert j < |history|;
      } else {
        assert PutAt(history, p, band[k - 1], i) && PutAt(history, p, band[l - 1], j);
      }
    } else {
      if l == |band| {
        assert j == |history|;
      } else {
        assert PutAt(history, p, band[k], i) && PutAt(history, p, band[l], j);
      }
    }
  }

  lemma GetOrderly(stack: bool, history: seq<Event>)
    requires Orderly(stack, history) && DistinctPuts(history)
    ensures Orderly(stack, history + [Get])
  {
    var h := history + [Get];
    var s, s' := ServeAll(stack, history), ServeAll(stack, h);
    ServeSnoc(stack, history, Get);
    PutAtSnoc(history, Get);
    if s.bands.IsEmpty() {
      assert forall x :: Handed(stack, h, x) <==> Handed(stack, history, x);
      hide ServeAll, Handed;
      forall p, x ensures x in s'.bands.Band(p) <==> Waits(stack, h, p, x) {
        assert x in s.bands.Band(p) <==> Waits(stack, history, p, x);
        GetWaits(stack, history, p, x);
      }
      forall p ensures InTurn(stack, h, p, s'.bands.Band(p)) { assert InTurn(stack, history, p, s.bands.Band(p)); }
    } else {
      TakenOrderly(stack, history);
    }
  }

  lemma GetWaits(stack: bool, history: seq<Event>, p: Priority, x: Item)
    ensures Waits(stack, history + [Get], p, x) <==> (exists i :: PutAt(history, p, x, i)) && !Handed(stack, history + [Get], x)
  {
    PutAtSnoc(history, Get);
    hide Handed;
    if exists i :: PutAt(history, p, x, i) {
      var i :| PutAt(history, p, x, i);
      assert PutAt(history + [Get], p, x, i);
    }
  }

  lemma TakenOrderly(stack: bool, history: seq<Event>)
    requires Orderly(stack, history) && DistinctPuts(history) && !ServeAll(stack, history).bands.IsEmpty()
    ensures Orderly(stack, history + [Get])
  {
    var h := history + [Get];
    var b, b' := ServeAll(stack, history).bands, ServeAll(stack, h).bands;
    var first, q := b.First(), b.Serving();
    ServeSnoc(stack, history, Get);
    PutAtSnoc(history, Get);
    assert forall x :: Handed(stack, h, x) <==> Handed(stack, history, x) || x == first;
    assert first in b.Band(q);
    assert Waits(stack, history, q, first);
    hide ServeAll, Handed;
    forall p, x ensures x in b'.Band(p) <==> Waits(stack, h, p, x) {
      assert x in b.Band(p) <==> Waits(stack, history, p, x);
      GetWaits(stack, history, p, x);
      if p == q {
        HeadOnce(stack, history, p, b.Band(p));
      } else if x == first && Waits(stack, history, p, x) {
        var i :| PutAt(history, p, x, i);
        var j :| PutAt(history, q, first, j);
        OnePut(history, p, q, x, i, j);
      }
    }
    forall p ensures InTurn(stack, h, p, b'.Band(p)) {
      assert InTurn(stack, history, p, b.Band(p));
      RestInTurn(stack, history, p, b.Band(p), b'.Band(p));
    }
    var i :| PutAt(history, q, first, i);
    assert PutAt(h, q, first, i);
    forall x | Handed(stack, h, x) ensures exists p, i :: PutAt(h, p, x, i) {
      if x != first {
        var p, i :| PutAt(history, p, x, i);
        assert PutAt(h, p, x, i);
      }
    }
  }

  lemma RestInTurn(stack: bool, history: seq<Event>, p: Priority, band: seq<Item>, rest: seq<Item>)
    requires InTurn(stack, history, p, band) && (rest == band || (band != [] && rest == band[1..]))
    ensures InTurn(stack, history + [Get], p, rest)
  {
    PutAtSnoc(history, Get);
    var d := |band| - |rest|;
    forall k, l, i, j | 0 <= k < l < |rest| && PutAt(history + [Get], p, rest[k], i) && PutAt(history + [Get], p, rest[l], j)
      ensures Sooner(stack, p, i, j)
    {
      assert rest[k] == band[k + d] && rest[l] == band[l + d];
    }
  }

  lemma HeadOnce(stack: bool, history: seq<Event>, p: Priority, band: seq<Item>)
    requires band != [] && InTurn(stack, history, p, band) && exists i :: PutAt(history, p, band[0], i)
    ensures band[0] !in band[1..] && forall x :: x in band <==> x == band[0] || x in band[1..]
  {
    var i :| PutAt(history, p, band[0], i);
    forall l | 1 <= l < |band| ensures band[l] != band[0] {
      assert PutAt(history, p, band[l], i) ==> Sooner(stack, p, i, i);
    }
    assert band == [band[0]] + band[1..];
  }

  lemma {:induction false} AlwaysOrderly(stack: bool, history: seq<Event>)
    requires DistinctPuts(history)
    ensures Orderly(stack, history)
    decreases |history|
  {
    if history == [] {
      NothingOrderly(stack);
    } else {
      var before, e := history[..|history| - 1], history[|history| - 1];
      assert history == before + [e];
      AlwaysOrderly(stack, before);
      hide Orderly;
      match e
      case Put(p, x) => PutOrderly(stack, before, p, x);
      case Get => GetOrderly(stack, before);
    }
  }

  lemma NothingOrderly(stack: bool)
    ensures Orderly(stack, [])
  {
    var none: Bands<Item> := Bands([], [], []);
    assert forall p :: none.Band(p) == [];
  }

  /** What a get is answered with, whatever happened before: nothing exactly if nothing waits, and otherwise the item
      that waits with the highest priority, of several the oldest, or in a stack the newest. Puts answer nothing. */
  lemma GetServes(stack: bool, history: seq<Event>)
    requires DistinctPuts(history)
    ensures forall p, x :: ServeAll(stack, history + [Put(p, x)]).answers == ServeAll(stack, history).answers
    ensures var a, a' := ServeAll(stack, history).answers, ServeAll(stack, history + [Get]).answers;
      && |a'| == |a| + 1 && a <= a'
      && (a'[|a|].None? <==> forall p, x :: !Waits(stack, history, p, x))
      && (a'[|a|].Some? ==> exists p, i :: IsNext(stack, history, p, a'[|a|].value, i))
  {
    AlwaysOrderly(stack, history);
    ServeSnoc(stack, history, Get);
    forall p, x ensures ServeAll(stack, history + [Put(p, x)]).answers == ServeAll(stack, history).answers {
      ServeSnoc(stack, history, Put(p, x));
    }
    var b := ServeAll(stack, history).bands;
    if b.IsEmpty() {
      assert forall p :: b.Band(p) == [];
    } else {
      assert b.First() in b.Band(b.Serving());
      FirstIsNext(stack, history, b);
    }
  }

  /** x, put at i with priority p, waits, and everything else that waits comes after it. */
  ghost predicate IsNext(stack: bool, history: seq<Event>, p: Priority, x: Item, i: int) {
    && PutAt(history, p, x, i) && Waits(stack, history, p, x)
    && forall q, y, j :: PutAt(history, q, y, j) && Waits(stack, history, q, y) && y != x ==>
         Rank(p) < Rank(q) || (p == q && Sooner(stack, p, i, j))
  }

  lemma FirstIsNext(stack: bool, history: seq<Event>, b: Bands<Item>)
    requires Orderly(stack, history) && b == ServeAll(stack, history).bands && !b.IsEmpty()
    ensures exists p, i :: IsNext(stack, history, p, b.First(), i)
  {
    var p, x := b.Serving(), b.First();
    assert x in b.Band(p);
    assert Waits(stack, history, p, x) && InTurn(stack, history, p, b.Band(p));
    var i :| PutAt(history, p, x, i);
    forall q, y, j | PutAt(history, q, y, j) && Waits(stack, history, q, y) && y != x
      ensures Rank(p) < Rank(q) || (p == q && Sooner(stack, p, i, j))
    {
      assert y in b.Band(q);
      if p == q {
        var l :| 0 <= l < |b.Band(q)| && b.Band(q)[l] == y;
        assert b.Band(p)[0] == x;
      }
    }
    assert IsNext(stack, history, p, x, i);
  }

  /** The heap holds what the history left in the bands. */
  ghost predicate Stands(stack: bool, heap: seq<Entry>, b: Bands<Entry>, history: seq<Event>) {
    Represents(heap, b) && Items(b) == ServeAll(stack, history).bands
  }

  lemma StandsMore(stack: bool, heap: seq<Entry>, b: Bands<Entry>, history: seq<Event>, e: Entry, front: bool)
    requires Stands(stack, heap, b, history) && Fits(b.Band(e.priority), e, front) && front == (stack && e.priority == Hot)
    ensures Stands(stack, heap + [e], b.Pushed(e.priority, e, front), history + [Put(e.priority, e.item)])
  {
    RepresentsMore(heap, b, e, front);
    ServeSnoc(stack, history, Put(e.priority, e.item));
    hide Represents, Items;
  }

  lemma StandsLess(stack: bool, heap: seq<Entry>, k: nat, b: Bands<Entry>, history: seq<Event>)
    requires Stands(stack, heap, b, history) && IsLeast(heap, k)
    ensures !b.IsEmpty() && Stands(stack, Without(heap, k), b.Rest(), history + [Get])
    ensures ServeAll(stack, history + [Get]).answers == ServeAll(stack, history).answers + [Some(heap[k].item)]
    ensures !Items(b).IsEmpty() && heap[k].item == Items(b).First() && Items(b.Rest()) == Items(b).Rest()
  {
    RepresentsLess(heap, k, b);
    ServeSnoc(stack, history, Get);
    hide Represents, Items;
  }

  lemma StandsEmpty(stack: bool, b: Bands<Entry>, history: seq<Event>)
    requires Stands(stack, [], b, history)
    ensures Stands(stack, [], b, history + [Get])
    ensures ServeAll(stack, history + [Get]).answers == ServeAll(stack, history).answers + [None]
    ensures Items(b).IsEmpty()
  {
    EmptyHeap(b);
    ServeSnoc(stack, history, Get);
  }

  /** A put takes two turns, with the queue's lock held between them; gets do not take that lock. */
  datatype Act = BeginPut(p: Priority, x: Item) | EndPut | TakeOne

  /** Who holds the lock after a script of turns; Broken if the lock does not allow the script. */
  datatype Lock = Free | Taken(p: Priority, x: Item) | Broken

  function LockAfter(script: seq<Act>): Lock {
    if |script| == 0 then Free
    else
      var before := LockAfter(script[..|script| - 1]);
      match script[|script| - 1]
      case BeginPut(p, x) => if before.Free? then Taken(p, x) else Broken
      case EndPut => if before.Taken? then Free else Broken
      case TakeOne => before
  }

  lemma {:induction false} PrefixAllowed(script: seq<Act>, i: nat)
    requires i <= |script| && !LockAfter(script).Broken?
    ensures !LockAfter(script[..i]).Broken?
    decreases |script|
  {
    if i == |script| {
      assert script[..i] == script;
    } else {
      var before := script[..|script| - 1];
      PrefixAllowed(before, i);
      assert before[..i] == script[..i];
    }
  }
}
