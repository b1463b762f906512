/** What a read-write lock is: many readers or one writer. */
module RWSpec {

  import opened LockThreads

  datatype Spec = Spec(readers: set<Tid>, writers: set<Tid>)

  ghost predicate Exclusive(s: Spec) {
    && (forall t, u :: t in s.writers && u in s.writers ==> t == u)
    && (s.writers != {} ==> s.readers == {})
  }

  /** One move of the specification by thread t: enter or leave as a reader or as the writer, or nothing. */
  ghost predicate SpecStep(s: Spec, s': Spec, t: Tid) {
    || s' == s
    || (s.writers == {} && s' == s.(readers := s.readers + {t}))
    || (t in s.readers && s' == s.(readers := s.readers - {t}))
    || (s.readers == {} && s.writers == {} && s' == s.(writers := {t}))
    || (t in s.writers && s' == s.(writers := {}))
  }

  lemma SpecStepExclusive(s: Spec, s': Spec, t: Tid)
    requires Exclusive(s) && SpecStep(s, s', t)
    ensures Exclusive(s')
  {
  }

  /** Those who hold a lock, seen from where its threads stand. */
  function Holders(pcs: seq<Pc>): Spec {
    Spec(In(pcs, Reading), In(pcs, Writing))
  }

  lemma HoldersExclusive(pcs: seq<Pc>)
    requires Count(pcs, Writing) <= 1 && (Count(pcs, Writing) > 0 ==> Count(pcs, Reading) == 0)
    ensures Exclusive(Holders(pcs))
  {
    EmptyIn(pcs, Reading);
    EmptyIn(pcs, Writing);
    forall t, u | t in In(pcs, Writing) && u in In(pcs, Writing) ensures t == u {
      if t != u { TwoAt(pcs, t, u, Writing); }
    }
  }

  /** Only thread t enters or leaves; it enters when the lock's rule allows it. */
  ghost predicate EntersOrLeaves(pcs: seq<Pc>, pcs': seq<Pc>, t: Tid) {
    && |pcs'| == |pcs| && t < |pcs|
    && (forall u :: 0 <= u < |pcs| && u != t ==>
          (pcs'[u] == Reading <==> pcs[u] == Reading) && (pcs'[u] == Writing <==> pcs[u] == Writing))
    && (pcs'[t] == Reading ==> pcs[t] == Reading || (pcs[t] != Writing && Count(pcs, Writing) == 0))
    && (pcs'[t] == Writing ==> pcs[t] == Writing || (Count(pcs, Reading) == 0 && Count(pcs, Writing) == 0))
  }

  /** Leaving, with or without waking the parked threads, is such a change. */
  lemma LeavingMoves(pcs: seq<Pc>, t: Tid)
    requires t < |pcs|
    ensures EntersOrLeaves(pcs, pcs[t := Idle], t) && EntersOrLeaves(pcs, WakeAll(pcs[t := Idle]), t)
  {
  }

  /** So is going to a place, if a holder's place only by the rule. */
  lemma GoingMoves(pcs: seq<Pc>, t: Tid, p: Pc)
    requires t < |pcs|
    requires p == Reading ==> pcs[t] != Writing && Count(pcs, Writing) == 0
    requires p == Writing ==> Count(pcs, Reading) == 0 && Count(pcs, Writing) == 0
    ensures EntersOrLeaves(pcs, pcs[t := p], t) && EntersOrLeaves(pcs, pcs, t)
  {
    assert pcs[t] in multiset(pcs);
  }

  /** Such a change is one move of the specification. */
  lemma HoldersMove(pcs: seq<Pc>, pcs': seq<Pc>, t: Tid)
    requires EntersOrLeaves(pcs, pcs', t)
    requires Count(pcs, Writing) <= 1 && (Count(pcs, Writing) > 0 ==> Count(pcs, Reading) == 0)
    ensures SpecStep(Holders(pcs), Holders(pcs'), t)
  {
    EmptyIn(pcs, Reading);
    EmptyIn(pcs, Writing);
    HoldersExclusive(pcs);
    assert In(pcs', Reading) == (if pcs'[t] == Reading then In(pcs, Reading) + {t} else In(pcs, Reading) - {t});
    assert In(pcs', Writing) == (if pcs'[t] == Writing then In(pcs, Writing) + {t} else In(pcs, Writing) - {t});
    assert pcs[t] != Writing ==> In(pcs, Writing) - {t} == In(pcs, Writing);
    assert pcs[t] != Reading ==> In(pcs, Reading) - {t} == In(pcs, Reading);
    if pcs[t] == Writing {
      forall u | u in In(pcs, Writing) ensures u == t {
        assert t in Holders(pcs).writers && u in Holders(pcs).writers;
      }
    }
    assert pcs[t] == Reading ==> t in In(pcs, Reading);
  }
}
