/** Where the threads using a lock stand, and what notify_all does to them. */
module LockThreads {

  type Tid = nat

  datatype Pc = Idle | ReadParked | ReadWoken | Reading | WriteParked | WriteWoken | Writing

  function Wake(p: Pc): Pc {
    if p == ReadParked then ReadWoken else if p == WriteParked then WriteWoken else p
  }

  function WakeAll(pcs: seq<Pc>): (r: seq<Pc>)
    ensures |r| == |pcs|
  {
    seq(|pcs|, i requires 0 <= i < |pcs| => Wake(pcs[i]))
  }

  /** Number of threads at p. */
  function Count(pcs: seq<Pc>, p: Pc): nat {
    multiset(pcs)[p]
  }

  lemma CountIn(pcs: seq<Pc>, p: Pc)
    ensures Count(pcs, p) > 0 <==> p in pcs
  {
    assert p in pcs <==> p in multiset(pcs);
  }

  lemma HeadCount(p: Pc, rest: seq<Pc>, q: Pc)
    ensures multiset([p] + rest)[q] == multiset(rest)[q] + (if p == q then 1 else 0)
  {
    assert multiset([p] + rest) == multiset{p} + multiset(rest);
  }

  /** How many threads are at q after notify_all, by where they were. */
  function Woken(m: multiset<Pc>, q: Pc): nat {
    match q
    case ReadParked => 0
    case WriteParked => 0
    case ReadWoken => m[ReadWoken] + m[ReadParked]
    case WriteWoken => m[WriteWoken] + m[WriteParked]
    case _ => m[q]
  }

  /** notify_all empties the parked places and leaves every other place as it was, up to waking. */
  lemma {:induction false} WakeAllCounts(pcs: seq<Pc>, q: Pc)
    ensures multiset(WakeAll(pcs))[q] == Woken(multiset(pcs), q)
  {
    if pcs != [] {
      WakeAllHead(pcs);
      hide WakeAll, Woken, Wake;
      WakeAllCounts(pcs[1..], q);
      WokenHead(pcs[0], pcs[1..], q);
      HeadCount(Wake(pcs[0]), WakeAll(pcs[1..]), q);
      assert [pcs[0]] + pcs[1..] == pcs;
    }
  }

  lemma WakeAllHead(pcs: seq<Pc>)
    requires pcs != []
    ensures WakeAll(pcs) == [Wake(pcs[0])] + WakeAll(pcs[1..])
  {
  }

  lemma WokenHead(p: Pc, rest: seq<Pc>, q: Pc)
    ensures Woken(multiset([p] + rest), q) == Woken(multiset(rest), q) + (if Wake(p) == q then 1 else 0)
  {
    HeadCount(p, rest, q);
    HeadCount(p, rest, ReadParked);
    HeadCount(p, rest, WriteParked);
  }

  lemma WakeAllPlaces(pcs: seq<Pc>)
    ensures forall q :: multiset(WakeAll(pcs))[q] == Woken(multiset(pcs), q)
  {
    forall q ensures multiset(WakeAll(pcs))[q] == Woken(multiset(pcs), q) {
      WakeAllCounts(pcs, q);
    }
  }

  lemma WokenCounts(pcs: seq<Pc>)
    ensures Count(WakeAll(pcs), ReadParked) == Count(WakeAll(pcs), WriteParked) == 0
    ensures Count(WakeAll(pcs), ReadWoken) == Count(pcs, ReadWoken) + Count(pcs, ReadParked)
    ensures Count(WakeAll(pcs), WriteWoken) == Count(pcs, WriteWoken) + Count(pcs, WriteParked)
    ensures Count(WakeAll(pcs), Reading) == Count(pcs, Reading) && Count(WakeAll(pcs), Writing) == Count(pcs, Writing)
  {
    WakeAllPlaces(pcs);
    hide WakeAll;
  }

  lemma MovedCount(pcs: seq<Pc>, t: Tid, p: Pc)
    requires t < |pcs|
    ensures forall q :: Count(pcs[t := p], q) == Count(pcs, q) - (if q == pcs[t] then 1 else 0) + (if q == p then 1 else 0)
  {
  }

  predicate Waits(p: Pc) { p == ReadParked || p == WriteParked }

  predicate Runnable(p: Pc) { p == Reading || p == Writing || p == ReadWoken || p == WriteWoken }

  lemma TwoAt(pcs: seq<Pc>, t: Tid, u: Tid, p: Pc)
    requires t < |pcs| && u < |pcs| && t != u && pcs[t] == pcs[u] == p
    ensures Count(pcs, p) >= 2
  {
    var a, b := if t < u then t else u, if t < u then u else t;
    assert pcs == pcs[..a] + [p] + pcs[a + 1..b] + [p] + pcs[b + 1..];
  }

  lemma SomeoneAt(pcs: seq<Pc>, p: Pc) returns (t: Tid)
    requires Count(pcs, p) > 0
    ensures t < |pcs| && pcs[t] == p
  {
    assert p in pcs;
    t :| 0 <= t < |pcs| && pcs[t] == p;
  }

  /** Every thread is at one of the seven places. */
  lemma AllPlaces(pcs: seq<Pc>)
    ensures |pcs| == Count(pcs, Idle) + Count(pcs, ReadParked) + Count(pcs, ReadWoken) + Count(pcs, Reading)
                       + Count(pcs, WriteParked) + Count(pcs, WriteWoken) + Count(pcs, Writing)
  {
    PlacesOf(multiset(pcs));
  }

  lemma PlacesOf(m: multiset<Pc>)
    ensures |m| == m[Idle] + m[ReadParked] + m[ReadWoken] + m[Reading] + m[WriteParked] + m[WriteWoken] + m[Writing]
  {
    var m1 := m[Idle := 0];
    var m2 := m1[ReadParked := 0];
    var m3 := m2[ReadWoken := 0];
    var m4 := m3[Reading := 0];
    var m5 := m4[WriteParked := 0];
    var m6 := m5[WriteWoken := 0];
    var m7 := m6[Writing := 0];
    forall p: Pc ensures m7[p] == 0 {
      match p case Idle => case ReadParked => case ReadWoken => case Reading =>
        case WriteParked => case WriteWoken => case Writing =>
    }
    assert forall p :: p !in m7;
    assert m7 == multiset{};
    assert |m7| == 0;
  }

  function In(pcs: seq<Pc>, p: Pc): set<Tid> {
    set t | 0 <= t < |pcs| && pcs[t] == p
  }

  lemma EmptyIn(pcs: seq<Pc>, p: Pc)
    ensures In(pcs, p) == {} <==> Count(pcs, p) == 0
  {
    if Count(pcs, p) > 0 {
      var t := SomeoneAt(pcs, p);
      assert t in In(pcs, p);
    }
    if t :| t in In(pcs, p) {
      assert p in multiset(pcs);
    }
  }
}
