/** The in-memory least-recently-used cache (shutils/cache.py), against what its contents mean. */
module LruCaches {
  import opened Options

  type Key = nat
  type Value = int

  datatype Op = Set(key: Key, value: Value) | Get(key: Key)

  // ---------------------------------------------------------------- meaning

  /** Distinct keys after the last occurrence of k. */
  function Since(touched: seq<Key>, k: Key): set<Key> {
    if touched == [] then {}
    else
      var last := touched[|touched| - 1];
      if last == k then {} else Since(touched[..|touched| - 1], k) + {last}
  }

  /** k was touched, and fewer than max distinct other keys have been touched since. */
  predicate Alive(max: nat, touched: seq<Key>, k: Key) {
    k in touched && |Since(touched, k)| < max
  }

  /** The keys touched by a history: those set, and those asked for while alive. */
  function Touches(max: nat, history: seq<Op>): seq<Key> {
    if history == [] then []
    else
      var before, last := Touches(max, history[..|history| - 1]), history[|history| - 1];
      if last.Set? || Alive(max, before, last.key) then before + [last.key] else before
  }

  function LastSet(history: seq<Op>, k: Key): Option<Value> {
    if history == [] then None
    else
      var last := history[|history| - 1];
      if last.Set? && last.key == k then Some(last.value) else LastSet(history[..|history| - 1], k)
  }

  /** What get is meant to answer after a history. */
  function Meaning(max: nat, history: seq<Op>, k: Key): Option<Value> {
    if Alive(max, Touches(max, history), k) then LastSet(history, k) else None
  }

  // ---------------------------------------------------------------- the ordered dictionary

  /** The keys of the ordered dictionary are listed here from the most recent one to the oldest. */
  datatype Cache = Cache(recent: seq<Key>, values: map<Key, Value>)

  function Without(s: seq<Key>, k: Key): seq<Key> {
    if s == [] then [] else if s[0] == k then s[1..] else [s[0]] + Without(s[1..], k)
  }

  function Take(s: seq<Key>, m: nat): seq<Key> {
    if m < |s| then s[..m] else s
  }

  /** `move_to_end`, or a new key at the end. */
  function Renewed(s: seq<Key>, k: Key): seq<Key> {
    [k] + Without(s, k)
  }

  function Evicted(c: Cache, max: nat): Cache {
    var recent := Take(c.recent, max);
    Cache(recent, Restrict(c.values, recent))
  }

  function Restrict(values: map<Key, Value>, keys: seq<Key>): map<Key, Value> {
    map k | k in values && k in keys :: values[k]
  }

  function Step(max: nat, c: Cache, op: Op): Cache {
    match op
    case Get(k) => if k in c.values then c.(recent := Renewed(c.recent, k)) else c
    case Set(k, v) => Evicted(Cache(Renewed(c.recent, k), c.values[k := v]), max)
  }

  function After(max: nat, history: seq<Op>): Cache {
    if history == [] then Cache([], map[])
    else Step(max, After(max, history[..|history| - 1]), history[|history| - 1])
  }

  // ---------------------------------------------------------------- recency order

  ghost predicate Distinct(s: seq<Key>) {
    s == [] || (s[0] !in s[1..] && Distinct(s[1..]))
  }

  function Elems(s: seq<Key>): set<Key> { set k | k in s }

  /** The touched keys, each once, most recent first. */
  function Recency(touched: seq<Key>): seq<Key> {
    if touched == [] then [] else Renewed(Recency(touched[..|touched| - 1]), touched[|touched| - 1])
  }

  /** The keys ahead of k. */
  function Ahead(s: seq<Key>, k: Key): set<Key> {
    if s == [] || s[0] == k then {} else {s[0]} + Ahead(s[1..], k)
  }

  lemma {:induction false} WithoutMembers(s: seq<Key>, k: Key)
    requires Distinct(s)
    ensures Distinct(Without(s, k))
    ensures forall x :: x in Without(s, k) <==> x in s && x != k
  {
    if s != [] {
      assert s == [s[0]] + s[1..];
      if s[0] != k {
        WithoutMembers(s[1..], k);
        assert Without(s, k)[1..] == Without(s[1..], k);
      }
    }
  }

  lemma RenewedMembers(s: seq<Key>, k: Key)
    requires Distinct(s)
    ensures Distinct(Renewed(s, k)) && forall x :: x in Renewed(s, k) <==> x in s || x == k
  {
    WithoutMembers(s, k);
    assert Renewed(s, k)[1..] == Without(s, k);
  }

  lemma {:induction false} RecencyDistinct(touched: seq<Key>)
    ensures Distinct(Recency(touched)) && forall k :: k in Recency(touched) <==> k in touched
    decreases |touched|
  {
    if touched != [] {
      var before, k := touched[..|touched| - 1], touched[|touched| - 1];
      RecencyDistinct(before);
      RenewedMembers(Recency(before), k);
      assert touched == before + [k];
    }
  }

  lemma {:induction false} AheadWithout(s: seq<Key>, x: Key, k: Key)
    requires x != k
    ensures Ahead(Without(s, x), k) + {x} == Ahead(s, k) + {x}
  {
    if s != [] && s[0] != x && s[0] != k {
      AheadWithout(s[1..], x, k);
      assert Without(s, x)[1..] == Without(s[1..], x);
    }
  }

  /** The keys touched after k are those ahead of it in the recency order. */
  lemma {:induction false} SinceIsAhead(touched: seq<Key>, k: Key)
    ensures Since(touched, k) == Ahead(Recency(touched), k)
    decreases |touched|
  {
    if touched != [] {
      var before, x := touched[..|touched| - 1], touched[|touched| - 1];
      SinceIsAhead(before, k);
      if x != k {
        AheadWithout(Recency(before), x, k);
        assert Recency(touched)[1..] == Without(Recency(before), x);
      }
    }
  }

  lemma {:induction false} TakeIffFewAhead(s: seq<Key>, m: nat, k: Key)
    requires Distinct(s) && k in s
    ensures k in Take(s, m) <==> |Ahead(s, k)| < m
    ensures forall x :: x in Ahead(s, k) ==> x in s
  {
    assert s == [s[0]] + s[1..];
    if s[0] != k && m > 0 {
      TakeIffFewAhead(s[1..], m - 1, k);
      assert Take(s, m) == [s[0]] + Take(s[1..], m - 1);
    } else if s[0] != k {
      TakeIffFewAhead(s[1..], 0, k);
    }
  }

  /** A key is alive exactly when it is among the max most recent. */
  lemma AliveIffKept(max: nat, touched: seq<Key>, k: Key)
    ensures Alive(max, touched, k) <==> k in Take(Recency(touched), max)
  {
    RecencyDistinct(touched);
    if k in touched {
      SinceIsAhead(touched, k);
      TakeIffFewAhead(Recency(touched), max, k);
    }
  }

  lemma {:induction false} TakeWithout(s: seq<Key>, m: nat, k: Key)
    ensures Take(Without(Take(s, m + 1), k), m) == Take(Without(s, k), m)
  {
    if s != [] && s[0] != k && m > 0 {
      TakeWithout(s[1..], m - 1, k);
      assert Take(s, m + 1) == [s[0]] + Take(s[1..], m);
      assert Take(s, m + 1)[1..] == Take(s[1..], m);
      assert Take(Without(s, k), m) == [s[0]] + Take(Without(s[1..], k), m - 1);
      assert Take([s[0]] + Without(Take(s[1..], m), k), m) == [s[0]] + Take(Without(Take(s[1..], m), k), m - 1);
    }
  }

  /** Renewing a key and evicting the oldest commute. */
  lemma TakeRenewed(s: seq<Key>, m: nat, k: Key)
    ensures Take(Renewed(Take(s, m), k), m) == Take(Renewed(s, k), m)
  {
    if m > 0 {
      TakeWithout(s, m - 1, k);
      assert Take(Renewed(Take(s, m), k), m) == [k] + Take(Without(Take(s, m), k), m - 1);
    }
  }

  lemma {:induction false} WithoutSize(s: seq<Key>, k: Key)
    ensures |Without(s, k)| == if k in s then |s| - 1 else |s|
    ensures k !in s ==> Without(s, k) == s
  {
    if s != [] {
      WithoutSize(s[1..], k);
    }
  }

  // ---------------------------------------------------------------- the cache means what it should

  ghost predicate Agrees(max: nat, c: Cache, history: seq<Op>) {
    && c.recent == Take(Recency(Touches(max, history)), max)
    && (forall k :: k in c.values <==> k in c.recent)
    && (forall k :: k in c.values ==> LastSet(history, k) == Some(c.values[k]))
  }

  lemma TouchesSnoc(max: nat, history: seq<Op>, op: Op)
    ensures Touches(max, history + [op]) ==
      if op.Set? || Alive(max, Touches(max, history), op.key) then Touches(max, history) + [op.key] else Touches(max, history)
    ensures forall k :: LastSet(history + [op], k) == if op.Set? && k == op.key then Some(op.value) else LastSet(history, k)
  {
    assert (history + [op])[..|history|] == history;
  }

  lemma RecencySnoc(touched: seq<Key>, k: Key)
    ensures Recency(touched + [k]) == Renewed(Recency(touched), k)
  {
    assert (touched + [k])[..|touched|] == touched;
  }

  lemma {:induction false} TakeDistinct(s: seq<Key>, m: nat)
    requires Distinct(s)
    ensures Distinct(Take(s, m)) && forall x :: x in Take(s, m) ==> x in s
  {
    if 0 < m < |s| {
      TakeDistinct(s[1..], m - 1);
      assert Take(s, m)[1..] == Take(s[1..], m - 1);
    }
  }

  /** A hit stays within the size, so nothing is evicted. */
  lemma GetAgrees(max: nat, c: Cache, history: seq<Op>, k: Key)
    requires Agrees(max, c, history)
    ensures Agrees(max, Step(max, c, Get(k)), history + [Get(k)])
  {
    var touched := Touches(max, history);
    AliveIffKept(max, touched, k);
    TouchesSnoc(max, history, Get(k));
    if k in c.recent {
      RecencySnoc(touched, k);
      RecencyDistinct(touched);
      TakeRenewed(Recency(touched), max, k);
      TakeDistinct(Recency(touched), max);
      WithoutSize(c.recent, k);
      RenewedMembers(c.recent, k);
      assert |Renewed(c.recent, k)| <= max;
    }
  }

  lemma SetAgrees(max: nat, c: Cache, history: seq<Op>, k: Key, v: Value)
    requires Agrees(max, c, history)
    ensures Agrees(max, Step(max, c, Set(k, v)), history + [Set(k, v)])
  {
    var touched := Touches(max, history);
    TouchesSnoc(max, history, Set(k, v));
    RecencySnoc(touched, k);
    RecencyDistinct(touched);
    TakeRenewed(Recency(touched), max, k);
    TakeDistinct(Recency(touched), max);
    RenewedMembers(c.recent, k);
    TakeDistinct(Renewed(c.recent, k), max);
  }

  lemma StepAgrees(max: nat, c: Cache, history: seq<Op>, op: Op)
    requires Agrees(max, c, history)
    ensures Agrees(max, Step(max, c, op), history + [op])
  {
    match op
    case Get(k) => GetAgrees(max, c, history, k);
    case Set(k, v) => SetAgrees(max, c, history, k, v);
  }

  /** Every history leaves the cache holding the most recently touched keys with their last values. */
  lemma {:induction false} HistoryAgrees(max: nat, history: seq<Op>)
    ensures Agrees(max, After(max, history), history)
    decreases |history|
  {
    if history != [] {
      var before, last := history[..|history| - 1], history[|history| - 1];
      HistoryAgrees(max, before);
      StepAgrees(max, After(max, before), before, last);
      assert history == before + [last];
    }
  }

  /** get finds k exactly when k was set and fewer than max distinct other keys were set or hit since k was
      last set or hit; what it finds is the last value set. */
  lemma GetFindsIff(max: nat, history: seq<Op>, k: Key)
    ensures var c := After(max, history);
      (if k in c.values then Some(c.values[k]) else None) == Meaning(max, history, k)
    ensures k in After(max, history).values <==> Alive(max, Touches(max, history), k)
  {
    HistoryAgrees(max, history);
    AliveIffKept(max, Touches(max, history), k);
  }

  // ---------------------------------------------------------------- using a key keeps it, leaving it alone loses it

  function OtherKeys(ops: seq<Op>, k: Key): set<Key> { set op | op in ops && op.key != k :: op.key }

  function SetKeys(ops: seq<Op>): set<Key> { set op | op in ops && op.Set? :: op.key }

  /** A call that uses k: it sets k, or asks for k and finds it. */
  predicate Uses(max: nat, history: seq<Op>, op: Op, k: Key) {
    op.key == k && (op.Set? || Meaning(max, history, k).Some?)
  }

  /** What one more call does to the keys touched since k. */
  lemma SinceSnoc(max: nat, h: seq<Op>, last: Op, k: Key)
    requires k in Touches(max, h)
    ensures var t, t' := Touches(max, h), Touches(max, h + [last]);
      && k in t' && Since(t', k) <= Since(t, k) + (if last.key != k then {last.key} else {})
      && (last.key != k ==> Since(t, k) <= Since(t', k) && (last.Set? ==> last.key in Since(t', k)))
  {
    TouchesSnoc(max, h, last);
    var t := Touches(max, h);
    assert (t + [last.key])[..|t|] == t;
    hide Touches, Alive, LastSet;
  }

  lemma TouchedSnoc(max: nat, h: seq<Op>, last: Op, k: Key)
    requires k in Touches(max, h + [last]) && last.key != k
    ensures k in Touches(max, h)
  {
    TouchesSnoc(max, h, last);
    hide Touches, Alive, LastSet;
  }

  lemma OpKeys(before: seq<Op>, last: Op, k: Key)
    ensures OtherKeys(before + [last], k) == OtherKeys(before, k) + (if last.key != k then {last.key} else {})
    ensures SetKeys(before + [last]) == SetKeys(before) + (if last.Set? then {last.key} else {})
  {
    assert last in before + [last];
  }

  lemma {:induction false} SinceUse(max: nat, history: seq<Op>, op: Op, k: Key, later: seq<Op>)
    requires Uses(max, history, op, k)
    ensures var touched := Touches(max, history + [op] + later);
      k in touched && Since(touched, k) <= OtherKeys(later, k) && LastSet(history + [op] + later, k).Some?
    decreases |later|
  {
    var h := history + [op];
    if later == [] {
      TouchesSnoc(max, history, op);
      assert h + [] == h;
      var touched := Touches(max, h);
      assert touched[|touched| - 1] == k;
    } else {
      var last, before := later[|later| - 1], later[..|later| - 1];
      hide Touches, Since, LastSet, Alive, OtherKeys, SetKeys, Uses;
      SinceUse(max, history, op, k, before);
      assert h + later == (h + before) + [last] && later == before + [last];
      TouchesSnoc(max, h + before, last);
      SinceSnoc(max, h + before, last, k);
      OpKeys(before, last, k);
    }
  }

  lemma {:induction false} LastSetStays(history: seq<Op>, k: Key, v: Value, later: seq<Op>)
    requires k !in SetKeys(later)
    ensures LastSet(history + [Set(k, v)] + later, k) == Some(v)
    decreases |later|
  {
    if later == [] {
      assert history + [Set(k, v)] + [] == history + [Set(k, v)] && (history + [Set(k, v)])[..|history|] == history;
    } else {
      var last, before := later[|later| - 1], later[..|later| - 1];
      assert last in later && forall op :: op in before ==> op in later;
      LastSetStays(history, k, v, before);
      var h := history + [Set(k, v)] + later;
      assert h[..|h| - 1] == history + [Set(k, v)] + before;
    }
  }

  /** A key that was set or found stays, with its last value, as long as fewer than max distinct other keys are asked
      for or set; in particular, asking for it renews it. */
  lemma UsedKeySurvives(max: nat, history: seq<Op>, op: Op, k: Key, later: seq<Op>)
    requires Uses(max, history, op, k) && |OtherKeys(later, k)| < max
    ensures Meaning(max, history + [op] + later, k) == LastSet(history + [op] + later, k)
    ensures Meaning(max, history + [op] + later, k).Some?
    ensures op.Set? && k !in SetKeys(later) ==> Meaning(max, history + [op] + later, k) == Some(op.value)
  {
    SinceUse(max, history, op, k, later);
    if op.Set? && k !in SetKeys(later) { LastSetStays(history, k, op.value, later); }
    SubsetSize(Since(Touches(max, history + [op] + later), k), OtherKeys(later, k));
  }

  lemma {:induction false} SubsetSize(a: set<Key>, b: set<Key>)
    requires a <= b
    ensures |a| <= |b|
  {
    if a != {} {
      var x :| x in a;
      SubsetSize(a - {x}, b - {x});
    }
  }

  lemma {:induction false} SinceSets(max: nat, history: seq<Op>, k: Key, later: seq<Op>)
    requires forall op :: op in later ==> op.key != k
    ensures k in Touches(max, history + later) ==> SetKeys(later) <= Since(Touches(max, history + later), k)
    decreases |later|
  {
    if later == [] {
      assert history + [] == history && SetKeys(later) == {};
    } else {
      var last, before := later[|later| - 1], later[..|later| - 1];
      assert last in later && forall op :: op in before ==> op in later;
      SinceSets(max, history, k, before);
      hide Touches, Since, SetKeys;
      assert history + later == (history + before) + [last] && later == before + [last];
      if k in Touches(max, history + later) {
        TouchedSnoc(max, history + before, last, k);
        SinceSnoc(max, history + before, last, k);
      }
      OpKeys(before, last, k);
    }
  }

  /** A key that nobody asks for or sets is gone after max distinct other keys have been set. */
  lemma UnusedKeyGoes(max: nat, history: seq<Op>, k: Key, later: seq<Op>)
    requires (forall op :: op in later ==> op.key != k) && |SetKeys(later)| >= max
    ensures Meaning(max, history + later, k) == None
  {
    SinceSets(max, history, k, later);
    if k in Touches(max, history + later) {
      SubsetSize(SetKeys(later), Since(Touches(max, history + later), k));
    }
  }

  lemma HistoryKeys(max: nat, history: seq<Op>)
    ensures Distinct(After(max, history).recent)
    ensures forall k :: k in After(max, history).values <==> k in After(max, history).recent
  {
    HistoryAgrees(max, history);
    RecencyDistinct(Touches(max, history));
    TakeDistinct(Recency(Touches(max, history)), max);
  }

  /** Never more than max entries. */
  lemma NeverOverfull(max: nat, history: seq<Op>)
    ensures |After(max, history).values| <= max
  {
    HistoryAgrees(max, history);
    var c := After(max, history);
    assert c.values.Keys == Elems(c.recent);
    ElemsSize(c.recent);
  }

  lemma {:induction false} ElemsSize(s: seq<Key>)
    ensures |Elems(s)| <= |s|
  {
    if s != [] {
      ElemsSize(s[1..]);
      assert Elems(s) == Elems(s[1..]) + {s[0]};
    }
  }

  // ---------------------------------------------------------------- the object

  class LRUCache {
    const maxSize: nat
    var recent: seq<Key>
    var values: map<Key, Value>
    ghost var history: seq<Op>

    ghost predicate Valid()
      reads this
    {
      Cache(recent, values) == After(maxSize, history)
    }

    constructor (max: nat)
      ensures Valid() && maxSize == max && history == []
    {
      maxSize := max;
      recent, values, history := [], map[], [];
    }

    method Lookup(key: Key) returns (r: Option<Value>)
      requires Valid()
      modifies this
      ensures Valid() && history == old(history) + [Get(key)]
      ensures r == Meaning(maxSize, old(history), key)
    {
      GetFindsIff(maxSize, history, key);
      assert (history + [Get(key)])[..|history|] == history;
      history := history + [Get(key)];
      if key !in values {
        return None;
      }
      recent := Renewed(recent, key);
      return Some(values[key]);
    }

    method Store(key: Key, value: Value)
      requires Valid()
      modifies this
      ensures Valid() && history == old(history) + [Set(key, value)]
    {
      HistoryKeys(maxSize, history);
      RenewedMembers(recent, key);
      WithoutSize(recent, key);
      assert (history + [Set(key, value)])[..|history|] == history;
      history := history + [Set(key, value)];
      if key in values {
        recent := Renewed(recent, key);
      } else {
        recent := [key] + recent;
      }
      assert recent == Renewed(old(recent), key);
      hide Renewed, Distinct;
      values := values[key := value];
      Cleanup();
    }

    /** `cleanup`: drop the oldest entry until the size fits. */
    method Cleanup()
      requires Distinct(recent) && forall k :: k in values <==> k in recent
      modifies this`recent, this`values
      ensures Cache(recent, values) == Evicted(Cache(old(recent), old(values)), maxSize)
    {
      while |recent| > maxSize
        invariant |recent| <= |old(recent)| && recent == old(recent)[..|recent|]
        invariant |recent| >= maxSize || recent == old(recent)
        invariant values == Restrict(old(values), recent)
        invariant Distinct(recent)
      {
        DropOldest(recent);
        var oldest := recent[|recent| - 1];
        DropValue(old(values), recent, oldest, recent[..|recent| - 1]);
        recent := recent[..|recent| - 1];
        values := values - {oldest};
      }
    }
  }

  lemma DropValue(values: map<Key, Value>, recent: seq<Key>, oldest: Key, others: seq<Key>)
    requires forall k :: k in others <==> k in recent && k != oldest
    ensures Restrict(values, others) == Restrict(values, recent) - {oldest}
  {
  }

  lemma {:induction false} DropOldest(s: seq<Key>)
    requires Distinct(s) && s != []
    ensures Distinct(s[..|s| - 1]) && forall k :: k in s[..|s| - 1] <==> k in s && k != s[|s| - 1]
  {
    var n := |s| - 1;
    assert s == s[..n] + [s[n]];
    if n > 0 {
      DropOldest(s[1..]);
      assert s[1..][..n - 1] == s[..n][1..] && s[1..][n - 1] == s[n];
      assert s == [s[0]] + s[1..] && s[..n] == [s[0]] + s[..n][1..];
    }
  }
}
