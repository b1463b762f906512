/** The writer-priority lock and its single condition variable (shutils/dag/lib/smart_lock.py).

    Every critical section is one step. A thread that finds its wait guard true parks on the
    condition variable; notify_all wakes every parked thread, and a woken thread looks at its guard
    again when it runs. */
module SmartLock {
  import opened LockThreads
  import opened Runs
  import opened RWSpec

  datatype State = State(readers: int, writersWaiting: int, writerActive: bool, pcs: seq<Pc>)

  datatype Step =
    | TryRead(t: Tid) | AcquireRead(t: Tid) | ResumeRead(t: Tid) | ReleaseRead(t: Tid)
    | TryWrite(t: Tid) | AcquireWrite(t: Tid) | ResumeWrite(t: Tid) | ReleaseWrite(t: Tid)

  predicate ReadBlocked(s: State) { s.writerActive || s.writersWaiting > 0 }

  predicate WriteBlocked(s: State) { s.writerActive || s.readers > 0 }

  /** Where its thread must stand for a step. */
  predicate MayStep(pcs: seq<Pc>, step: Step) {
    step.t < |pcs| &&
    match step
    case TryRead(t) => pcs[t].Idle?
    case AcquireRead(t) => pcs[t].Idle?
    case ResumeRead(t) => pcs[t].ReadWoken?
    case ReleaseRead(t) => pcs[t].Reading?
    case TryWrite(t) => pcs[t].Idle?
    case AcquireWrite(t) => pcs[t].Idle?
    case ResumeWrite(t) => pcs[t].WriteWoken?
    case ReleaseWrite(t) => pcs[t].Writing?
  }

  predicate Enabled(s: State, step: Step) { MayStep(s.pcs, step) }

  function Goto(s: State, t: Tid, p: Pc): State
    requires t < |s.pcs|
  {
    s.(pcs := s.pcs[t := p])
  }

  /** The wait loop of `_blocking_acquire_read`: enter, or park. */
  function EnterRead(s: State, t: Tid): State
    requires t < |s.pcs|
  {
    if ReadBlocked(s) then Goto(s, t, ReadParked) else Goto(s, t, Reading).(readers := s.readers + 1)
  }

  /** The wait loop of `_blocking_acquire_write`; the waiting count falls only on entering. */
  function EnterWrite(s: State, t: Tid): State
    requires t < |s.pcs|
  {
    if WriteBlocked(s) then Goto(s, t, WriteParked)
    else Goto(s, t, Writing).(writerActive := true, writersWaiting := s.writersWaiting - 1)
  }

  function Next(s: State, step: Step): State
    requires Enabled(s, step)
  {
    match step
    case TryRead(t) => if s.writerActive || s.writersWaiting != 0 then s else Goto(s, t, Reading).(readers := s.readers + 1)
    case AcquireRead(t) => EnterRead(s, t)
    case ResumeRead(t) => EnterRead(s, t)
    case ReleaseRead(t) =>
      var s1 := Goto(s, t, Idle).(readers := s.readers - 1);
      if s1.readers == 0 then s1.(pcs := WakeAll(s1.pcs)) else s1
    case TryWrite(t) => if s.writerActive || s.readers != 0 then s else Goto(s, t, Writing).(writerActive := true)
    case AcquireWrite(t) => EnterWrite(s.(writersWaiting := s.writersWaiting + 1), t)
    case ResumeWrite(t) => EnterWrite(s, t)
    case ReleaseWrite(t) =>
      var s1 := Goto(s, t, Idle).(writerActive := false);
      s1.(pcs := WakeAll(s1.pcs))
  }

  // ---------------------------------------------------------------- invariant

  ghost predicate Inv(s: State) {
    && s.readers == Count(s.pcs, Reading)
    && s.writersWaiting == Count(s.pcs, WriteParked) + Count(s.pcs, WriteWoken)
    && Count(s.pcs, Writing) == (if s.writerActive then 1 else 0)
    && (s.writerActive ==> s.readers == 0)
    && (Count(s.pcs, ReadParked) > 0 ==> ReadBlocked(s))
    && (Count(s.pcs, WriteParked) > 0 ==> WriteBlocked(s))
  }

  function Init(n: nat): State {
    State(0, 0, false, seq(n, i => Idle))
  }

  lemma InitInv(n: nat)
    ensures Inv(Init(n))
  {
    forall p | p != Idle ensures Count(Init(n).pcs, p) == 0 {
      assert p !in Init(n).pcs;
    }
  }

  lemma ReleaseReadInv(s: State, t: Tid)
    requires Inv(s) && Enabled(s, ReleaseRead(t))
    ensures Inv(Next(s, ReleaseRead(t)))
  {
    MovedCount(s.pcs, t, Idle);
    WokenCounts(s.pcs[t := Idle]);
    hide WakeAll, Count;
  }

  lemma ReleaseWriteInv(s: State, t: Tid)
    requires Inv(s) && Enabled(s, ReleaseWrite(t))
    ensures Inv(Next(s, ReleaseWrite(t)))
  {
    MovedCount(s.pcs, t, Idle);
    WokenCounts(s.pcs[t := Idle]);
    hide WakeAll, Count;
  }

  lemma EnterReadInv(s: State, t: Tid)
    requires Inv(s) && t < |s.pcs| && (s.pcs[t].Idle? || s.pcs[t].ReadWoken?)
    ensures Inv(EnterRead(s, t)) && |EnterRead(s, t).pcs| == |s.pcs|
  {
    MovedCount(s.pcs, t, Reading);
    MovedCount(s.pcs, t, ReadParked);
    hide Count;
  }

  /** A writer that begins to wait is counted first; a woken one already is. */
  lemma EnterWriteInv(s: State, s1: State, t: Tid)
    requires Inv(s) && t < |s.pcs|
    requires || (s.pcs[t].Idle? && s1 == s.(writersWaiting := s.writersWaiting + 1))
             || (s.pcs[t].WriteWoken? && s1 == s)
    ensures Inv(EnterWrite(s1, t)) && |EnterWrite(s1, t).pcs| == |s.pcs|
  {
    MovedCount(s.pcs, t, Writing);
    MovedCount(s.pcs, t, WriteParked);
    hide Count;
  }

  lemma TryWriteInv(s: State, t: Tid)
    requires Inv(s) && Enabled(s, TryWrite(t))
    ensures Inv(Next(s, TryWrite(t)))
  {
    MovedCount(s.pcs, t, Writing);
    hide Count;
  }

  /** Every critical section, in any interleaving, keeps the invariant. */
  lemma StepInv(s: State, step: Step)
    requires Inv(s) && Enabled(s, step)
    ensures Inv(Next(s, step)) && |Next(s, step).pcs| == |s.pcs|
  {
    match step {
      case ReleaseRead(t) => ReleaseReadInv(s, t); hide Inv, WakeAll;
      case ReleaseWrite(t) => ReleaseWriteInv(s, t); hide Inv, WakeAll;
      case TryRead(t) => EnterReadInv(s, t); CountersAgree(s); hide Inv;
      case AcquireRead(t) => EnterReadInv(s, t); hide Inv;
      case ResumeRead(t) => EnterReadInv(s, t); hide Inv;
      case TryWrite(t) => TryWriteInv(s, t); hide Inv;
      case AcquireWrite(t) => EnterWriteInv(s, s.(writersWaiting := s.writersWaiting + 1), t); hide Inv;
      case ResumeWrite(t) => EnterWriteInv(s, s, t); hide Inv;
    }
  }

  lemma CountersAgree(s: State)
    requires Inv(s)
    ensures s.writersWaiting >= 0 && s.readers >= 0
  {
  }

  // ---------------------------------------------------------------- runs

  lemma {:induction false} RunInv(s: State, steps: seq<Step>)
    requires Inv(s) && IsRun(Next, s, steps)
    ensures Inv(After(Next, s, steps)) && |After(Next, s, steps).pcs| == |s.pcs|
    decreases |steps|
  {
    if steps != [] {
      StepInv(s, steps[0]);
      RunInv(Next(s, steps[0]), steps[1..]);
    }
  }

  /** In every interleaving the reader count is the number of read holders, a writer holds alone,
      and the guard of every thread that is still parked is true: no wakeup is lost. */
  lemma MutualExclusionNoLostWakeup(n: nat, steps: seq<Step>)
    requires IsRun(Next, Init(n), steps)
    ensures var s := After(Next, Init(n), steps);
      && s.readers == multiset(s.pcs)[Reading]
      && (forall t, u :: 0 <= t < |s.pcs| && 0 <= u < |s.pcs| && t != u && s.pcs[t] == Writing ==>
            s.pcs[u] != Writing && s.pcs[u] != Reading)
      && (forall t :: 0 <= t < |s.pcs| && s.pcs[t] == ReadParked ==> ReadBlocked(s))
      && (forall t :: 0 <= t < |s.pcs| && s.pcs[t] == WriteParked ==> WriteBlocked(s))
  {
    InitInv(n);
    RunInv(Init(n), steps);
    var s := After(Next, Init(n), steps);
    forall t, u | 0 <= t < |s.pcs| && 0 <= u < |s.pcs| && t != u && s.pcs[t] == Writing
      ensures s.pcs[u] != Writing && s.pcs[u] != Reading
    {
      assert Writing in multiset(s.pcs);
      assert s.pcs[u] == Reading ==> Reading in multiset(s.pcs);
      if s.pcs[u] == Writing {
        TwoAt(s.pcs, t, u, Writing);
      }
    }
    forall t | 0 <= t < |s.pcs|
      ensures s.pcs[t] == ReadParked ==> ReadBlocked(s)
      ensures s.pcs[t] == WriteParked ==> WriteBlocked(s)
    {
      assert s.pcs[t] in multiset(s.pcs);
    }
  }

  /** Never stuck: if a thread is parked, another one holds the lock or is about to run. */
  lemma NeverStuck(n: nat, steps: seq<Step>, t: Tid)
    requires IsRun(Next, Init(n), steps) && t < |After(Next, Init(n), steps).pcs| && Waits(After(Next, Init(n), steps).pcs[t])
    ensures var s := After(Next, Init(n), steps); exists u :: 0 <= u < |s.pcs| && Runnable(s.pcs[u])
  {
    var s := After(Next, Init(n), steps);
    InitInv(n);
    RunInv(Init(n), steps);
    assert s.pcs[t] in multiset(s.pcs);
    var u := ParkedSeesRunnable(s);
  }

  lemma ParkedSeesRunnable(s: State) returns (u: Tid)
    requires Inv(s) && Count(s.pcs, ReadParked) + Count(s.pcs, WriteParked) > 0
    ensures u < |s.pcs| && Runnable(s.pcs[u])
  {
    if s.writerActive {
      u := SomeoneAt(s.pcs, Writing);
    } else if s.readers > 0 {
      u := SomeoneAt(s.pcs, Reading);
    } else {
      u := SomeoneAt(s.pcs, WriteWoken);
    }
  }

  /** Writer priority: while a blocking writer waits, no step lets a reader in. */
  lemma WriterPriority(s: State, step: Step, w: Tid)
    requires Inv(s) && Enabled(s, step) && w < |s.pcs| && (s.pcs[w] == WriteParked || s.pcs[w] == WriteWoken)
    ensures Next(s, step).readers <= s.readers
  {
    assert s.pcs[w] in multiset(s.pcs);
  }

  // ---------------------------------------------------------------- draining

  /** Only holders leave and woken threads go on; nobody new arrives. */
  predicate Drains(step: Step) {
    step.ReleaseRead? || step.ReleaseWrite? || step.ResumeRead? || step.ResumeWrite?
  }

  function Busy(s: State): nat {
    |s.pcs| - Count(s.pcs, Idle)
  }

  lemma TwoSteps(s: State, a: Step, b: Step)
    requires Enabled(s, a) && Enabled(Next(s, a), b)
    ensures IsRun(Next, s, [a, b]) && After(Next, s, [a, b]) == Next(Next(s, a), b)
  {
    OneStep(Next, Next(s, a), b);
    assert [a, b][1..] == [b];
  }

  /** Some thread can finish with the lock: a holder leaves, or else a woken thread enters and leaves. */
  lemma OneDrains(s: State) returns (steps: seq<Step>)
    requires Inv(s) && Busy(s) > 0
    ensures IsRun(Next, s, steps) && (forall a :: a in steps ==> Drains(a))
    ensures Inv(After(Next, s, steps)) && |After(Next, s, steps).pcs| == |s.pcs| && Busy(After(Next, s, steps)) == Busy(s) - 1
  {
    if s.writerActive {
      var u := SomeoneAt(s.pcs, Writing);
      steps := Leave(s, ReleaseWrite(u));
    } else if s.readers > 0 {
      var u := SomeoneAt(s.pcs, Reading);
      steps := Leave(s, ReleaseRead(u));
    } else if s.writersWaiting > 0 {
      var u := SomeoneAt(s.pcs, WriteWoken);
      steps := EnterAndLeave(s, ResumeWrite(u), ReleaseWrite(u));
    } else {
      AllPlaces(s.pcs);
      var u := SomeoneAt(s.pcs, ReadWoken);
      steps := EnterAndLeave(s, ResumeRead(u), ReleaseRead(u));
    }
  }

  lemma EnterAndLeave(s: State, a: Step, b: Step) returns (steps: seq<Step>)
    requires Inv(s) && Enabled(s, a) && Enabled(Next(s, a), b)
    requires (a.ResumeRead? && b.ReleaseRead?) || (a.ResumeWrite? && b.ReleaseWrite?)
    requires Count(Next(s, a).pcs, Idle) == Count(s.pcs, Idle)
    ensures IsRun(Next, s, steps) && (forall a :: a in steps ==> Drains(a))
    ensures Inv(After(Next, s, steps)) && |After(Next, s, steps).pcs| == |s.pcs| && Busy(After(Next, s, steps)) == Busy(s) - 1
  {
    StepInv(s, a);
    var last := Leave(Next(s, a), b);
    TwoSteps(s, a, b);
    steps := [a, b];
  }

  lemma Leave(s: State, a: Step) returns (steps: seq<Step>)
    requires Inv(s) && Enabled(s, a) && (a.ReleaseRead? || a.ReleaseWrite?)
    ensures steps == [a] && IsRun(Next, s, steps) && After(Next, s, steps) == Next(s, a)
    ensures Inv(Next(s, a)) && |Next(s, a).pcs| == |s.pcs| && Busy(Next(s, a)) == Busy(s) - 1
  {
    StepInv(s, a);
    OneStep(Next, s, a);
    WakeAllCounts(s.pcs[a.t := Idle], Idle);
    steps := [a];
  }

  /** From every reachable state all threads, parked ones included, can get the lock and leave:
      no state strands a waiting thread. */
  lemma {:induction false} CanDrain(s: State) returns (steps: seq<Step>)
    requires Inv(s)
    ensures IsRun(Next, s, steps) && (forall a :: a in steps ==> Drains(a))
    ensures forall t :: 0 <= t < |After(Next, s, steps).pcs| ==> After(Next, s, steps).pcs[t] == Idle
    decreases Busy(s)
  {
    steps := [];
    if Busy(s) > 0 {
      var a := OneDrains(s);
      var b := CanDrain(After(Next, s, a));
      RunsConcat(Next, s, a, b);
      steps := a + b;
    } else {
      AllPlaces(s.pcs);
      forall t | 0 <= t < |s.pcs| ensures s.pcs[t] == Idle {
        assert s.pcs[t] in multiset(s.pcs);
      }
    }
  }

  // ---------------------------------------------------------------- interrupts

  /** An exception thrown out of the wait of a writer: the `finally` clause takes back the waiting count
      and wakes nobody. */
  function InterruptWrite(s: State, t: Tid): State
    requires t < |s.pcs| && (s.pcs[t] == WriteParked || s.pcs[t] == WriteWoken)
  {
    Goto(s, t, Idle).(writersWaiting := s.writersWaiting - 1)
  }

  /** The invariant survives such an interrupt exactly when no reader is parked behind this writer alone. */
  lemma InterruptKeepsInvIff(s: State, t: Tid)
    requires Inv(s) && t < |s.pcs| && (s.pcs[t] == WriteParked || s.pcs[t] == WriteWoken)
    ensures Inv(InterruptWrite(s, t)) <==> Count(s.pcs, ReadParked) == 0 || s.writerActive || s.writersWaiting > 1
  {
    assert s.pcs[t] in multiset(s.pcs);
  }

  /** Such a state can be reached, and then nobody is left to help: a writer waits behind a reader, a second reader
      parks behind the writer, the first reader leaves and wakes both, the second parks again, and the writer is
      interrupted before it runs. The second reader is parked, its guard is false, and no thread can run. */
  lemma InterruptCanStrandAReader()
    ensures var steps := [AcquireRead(0), AcquireWrite(1), AcquireRead(2), ReleaseRead(0), ResumeRead(2)];
      && IsRun(Next, Init(3), steps)
      && var s := After(Next, Init(3), steps);
         && |s.pcs| == 3 && s.pcs[1] == WriteWoken
         && var e := InterruptWrite(s, 1);
            e.pcs == [Idle, Idle, ReadParked] && !ReadBlocked(e) && forall t :: 0 <= t < 3 ==> !Runnable(e.pcs[t])
  {
    var s2 := WriterBehindReader();
    var s5 := WriterWokenLate(s2);
    var first, second := [AcquireRead(0), AcquireWrite(1)], [AcquireRead(2), ReleaseRead(0), ResumeRead(2)];
    RunsConcat(Next, Init(3), first, second);
    assert first + second == [AcquireRead(0), AcquireWrite(1), AcquireRead(2), ReleaseRead(0), ResumeRead(2)];
  }

  lemma WriterBehindReader() returns (s: State)
    ensures IsRun(Next, Init(3), [AcquireRead(0), AcquireWrite(1)]) && s == After(Next, Init(3), [AcquireRead(0), AcquireWrite(1)])
    ensures s == State(1, 1, false, [Reading, WriteParked, Idle])
  {
    var s0 := Init(3);
    assert s0.pcs == [Idle, Idle, Idle];
    var s1 := Next(s0, AcquireRead(0));
    assert s1.pcs == [Reading, Idle, Idle];
    s := Next(s1, AcquireWrite(1));
    TwoSteps(s0, AcquireRead(0), AcquireWrite(1));
  }

  lemma WriterWokenLate(s: State) returns (e: State)
    requires s == State(1, 1, false, [Reading, WriteParked, Idle])
    ensures IsRun(Next, s, [AcquireRead(2), ReleaseRead(0), ResumeRead(2)])
    ensures e == After(Next, s, [AcquireRead(2), ReleaseRead(0), ResumeRead(2)])
    ensures e == State(0, 1, false, [Idle, WriteWoken, ReadParked])
  {
    var s3 := Next(s, AcquireRead(2));
    assert s3.pcs == [Reading, WriteParked, ReadParked];
    var s4 := Next(s3, ReleaseRead(0));
    assert s4.pcs == [Idle, WriteWoken, ReadWoken];
    e := Next(s4, ResumeRead(2));
    TwoSteps(s3, ReleaseRead(0), ResumeRead(2));
    Cons(Next, s, AcquireRead(2), [ReleaseRead(0), ResumeRead(2)]);
    assert [AcquireRead(2)] + [ReleaseRead(0), ResumeRead(2)] == [AcquireRead(2), ReleaseRead(0), ResumeRead(2)];
  }

  // ---------------------------------------------------------------- the lock without counters

  /** Nobody writes or wants to. */
  predicate NoWriter(pcs: seq<Pc>) { Writing !in pcs && WriteParked !in pcs && WriteWoken !in pcs }

  /** Nobody holds the lock. */
  predicate Unheld(pcs: seq<Pc>) { Reading !in pcs && Writing !in pcs }

  /** What the lock is meant to do, said of the threads' places alone. */
  function Meant(pcs: seq<Pc>, step: Step): seq<Pc>
    requires MayStep(pcs, step)
  {
    match step
    case TryRead(t) => if NoWriter(pcs) then pcs[t := Reading] else pcs
    case AcquireRead(t) => pcs[t := if NoWriter(pcs) then Reading else ReadParked]
    case ResumeRead(t) => pcs[t := if NoWriter(pcs) then Reading else ReadParked]
    case ReleaseRead(t) => if Reading in pcs[t := Idle] then pcs[t := Idle] else WakeAll(pcs[t := Idle])
    case TryWrite(t) => if Unheld(pcs) then pcs[t := Writing] else pcs
    case AcquireWrite(t) => pcs[t := if Unheld(pcs) then Writing else WriteParked]
    case ResumeWrite(t) => pcs[t := if Unheld(pcs) then Writing else WriteParked]
    case ReleaseWrite(t) => WakeAll(pcs[t := Idle])
  }

  /** The counters say what the places say. */
  lemma CountersTell(s: State)
    requires Inv(s)
    ensures NoWriter(s.pcs) <==> !ReadBlocked(s)
    ensures Unheld(s.pcs) <==> !WriteBlocked(s)
    ensures s.readers == 0 <==> Reading !in s.pcs
  {
    CountIn(s.pcs, Reading);
    CountIn(s.pcs, Writing);
    CountIn(s.pcs, WriteParked);
    CountIn(s.pcs, WriteWoken);
    hide Count;
  }

  lemma StepAsMeant(s: State, step: Step)
    requires Inv(s) && Enabled(s, step)
    ensures Next(s, step).pcs == Meant(s.pcs, step)
  {
    CountersTell(s);
    if step.ReleaseRead? {
      CountIn(s.pcs[step.t := Idle], Reading);
      MovedCount(s.pcs, step.t, Idle);
    }
    hide WakeAll, Count;
  }

  /** In every run of critical sections the threads stand where they are meant to. */
  lemma {:induction false} RunsAsMeant(s: State, steps: seq<Step>)
    requires Inv(s) && IsRun(Next, s, steps)
    ensures IsRun(Meant, s.pcs, steps) && After(Next, s, steps).pcs == After(Meant, s.pcs, steps)
    decreases |steps|
  {
    if steps != [] {
      StepAsMeant(s, steps[0]);
      StepInv(s, steps[0]);
      hide Inv, Next, Meant;
      RunsAsMeant(Next(s, steps[0]), steps[1..]);
    }
  }

  // ---------------------------------------------------------------- refinement

  lemma StepMoves(s: State, step: Step)
    requires Inv(s) && Enabled(s, step)
    ensures EntersOrLeaves(s.pcs, Next(s, step).pcs, step.t)
  {
    var t := step.t;
    assert s.pcs[t] in multiset(s.pcs);
    hide WakeAll, EntersOrLeaves;
    match step
    case ReleaseRead(_) => LeavingMoves(s.pcs, t);
    case ReleaseWrite(_) => LeavingMoves(s.pcs, t);
    case TryRead(_) => GoingMoves(s.pcs, t, if s.writerActive || s.writersWaiting != 0 then Idle else Reading);
    case AcquireRead(_) => GoingMoves(s.pcs, t, if ReadBlocked(s) then ReadParked else Reading);
    case ResumeRead(_) => GoingMoves(s.pcs, t, if ReadBlocked(s) then ReadParked else Reading);
    case TryWrite(_) => GoingMoves(s.pcs, t, if s.writerActive || s.readers != 0 then Idle else Writing);
    case AcquireWrite(_) => GoingMoves(s.pcs, t, if WriteBlocked(s) then WriteParked else Writing);
    case ResumeWrite(_) => GoingMoves(s.pcs, t, if WriteBlocked(s) then WriteParked else Writing);
  }

  /** Each critical section is one move of the many-readers-or-one-writer specification, or no move. */
  lemma Refines(s: State, step: Step)
    requires Inv(s) && Enabled(s, step)
    ensures Exclusive(Holders(s.pcs)) && SpecStep(Holders(s.pcs), Holders(Next(s, step).pcs), step.t)
  {
    HoldersExclusive(s.pcs);
    StepMoves(s, step);
    hide Inv, EntersOrLeaves;
    HoldersMove(s.pcs, Next(s, step).pcs, step.t);
  }

  // ---------------------------------------------------------------- the object

  /** The lock object. Each method body is one critical section on the object's fields; `pcs` records,
      for the proofs only, where each thread stands. A blocking method that answers false has parked
      its thread, and the matching Resume method runs when the thread has been woken. */
  class SmartRWLock {
    var readers: int
    var writersWaiting: int
    var writerActive: bool
    ghost var pcs: seq<Pc>

    ghost function View(): State
      reads this
    {
      State(readers, writersWaiting, writerActive, pcs)
    }

    lemma ViewPcs()
      ensures View().pcs == pcs
    {
    }

    constructor (ghost n: nat)
      ensures View() == Init(n)
    {
      readers, writersWaiting, writerActive, pcs := 0, 0, false, seq(n, i => Idle);
    }

    method TryAcquireRead(ghost t: Tid) returns (ok: bool)
      requires Enabled(View(), TryRead(t))
      modifies this
      ensures View() == Next(old(View()), TryRead(t)) && (ok <==> pcs[t] == Reading)
      ensures Inv(old(View())) ==> (ok <==> NoWriter(old(pcs))) && pcs == if ok then old(pcs)[t := Reading] else old(pcs)
    {
      if Inv(View()) { CountersTell(View()); }
      ok := !writerActive && writersWaiting == 0;
      if ok {
        readers := readers + 1;
        pcs := pcs[t := Reading];
      }
    }

    method BlockingAcquireRead(ghost t: Tid) returns (entered: bool)
      requires Enabled(View(), AcquireRead(t)) || Enabled(View(), ResumeRead(t))
      modifies this
      ensures View() == EnterRead(old(View()), t) && (entered <==> pcs[t] == Reading)
      ensures Inv(old(View())) ==> (entered <==> NoWriter(old(pcs))) && pcs == old(pcs)[t := if entered then Reading else ReadParked]
    {
      if Inv(View()) { CountersTell(View()); }
      entered := !(writerActive || writersWaiting > 0);
      if entered {
        readers := readers + 1;
      }
      pcs := pcs[t := if entered then Reading else ReadParked];
    }

    method ReleaseReadLock(ghost t: Tid)
      requires Enabled(View(), ReleaseRead(t))
      modifies this
      ensures View() == Next(old(View()), ReleaseRead(t))
    {
      readers := readers - 1;
      pcs := pcs[t := Idle];
      if readers == 0 {
        NotifyAll();
      }
    }

    method TryAcquireWrite(ghost t: Tid) returns (ok: bool)
      requires Enabled(View(), TryWrite(t))
      modifies this
      ensures View() == Next(old(View()), TryWrite(t)) && (ok <==> pcs[t] == Writing)
      ensures Inv(old(View())) ==> (ok <==> Unheld(old(pcs))) && pcs == if ok then old(pcs)[t := Writing] else old(pcs)
    {
      if Inv(View()) { CountersTell(View()); }
      ok := !writerActive && readers == 0;
      if ok {
        writerActive := true;
        pcs := pcs[t := Writing];
      }
    }

    method BlockingAcquireWrite(ghost t: Tid) returns (entered: bool)
      requires Enabled(View(), AcquireWrite(t))
      modifies this
      ensures View() == Next(old(View()), AcquireWrite(t)) && (entered <==> pcs[t] == Writing)
      ensures Inv(old(View())) ==> (entered <==> Unheld(old(pcs))) && pcs == old(pcs)[t := if entered then Writing else WriteParked]
    {
      if Inv(View()) { CountersTell(View()); }
      writersWaiting := writersWaiting + 1;
      entered := WriteLoop(t);
    }

    method WriteLoop(ghost t: Tid) returns (entered: bool)
      requires t < |pcs|
      modifies this
      ensures View() == EnterWrite(old(View()), t) && (entered <==> pcs[t] == Writing)
    {
      entered := !(writerActive || readers > 0);
      if entered {
        writerActive := true;
        writersWaiting := writersWaiting - 1;
      }
      pcs := pcs[t := if entered then Writing else WriteParked];
    }

    method ReleaseWriteLock(ghost t: Tid)
      requires Enabled(View(), ReleaseWrite(t))
      modifies this
      ensures View() == Next(old(View()), ReleaseWrite(t))
    {
      writerActive := false;
      pcs := pcs[t := Idle];
      NotifyAll();
    }

    method NotifyAll()
      modifies this`pcs
      ensures pcs == WakeAll(old(pcs))
    {
      pcs := WakeAll(pcs);
    }

    /** The answer of a step: whether its thread now holds the lock. */
    method Perform(step: Step) returns (ok: bool)
      requires Enabled(View(), step)
      modifies this
      ensures View() == Next(old(View()), step) && step.t < |pcs|
      ensures ok <==> pcs[step.t] == Reading || pcs[step.t] == Writing
    {
      ok := false;
      match step
      case TryRead(t) => ok := TryAcquireRead(t);
      case AcquireRead(t) => ok := BlockingAcquireRead(t);
      case ResumeRead(t) => ok := BlockingAcquireRead(t);
      case ReleaseRead(t) => ReleaseReadLock(t);
      case TryWrite(t) => ok := TryAcquireWrite(t);
      case AcquireWrite(t) => ok := BlockingAcquireWrite(t);
      case ResumeWrite(t) => ok := WriteLoop(t);
      case ReleaseWrite(t) => ReleaseWriteLock(t);
    }
  }

  /** After i steps of the schedule its last step was answered as meant. */
  ghost predicate Answered(pcs: seq<Pc>, schedule: seq<Step>, i: nat, ok: bool)
    requires IsRun(Meant, pcs, schedule)
  {
    i < |schedule| &&
    RunPrefix(Meant, pcs, schedule, i + 1) &&
    var e := After(Meant, pcs, schedule[..i + 1]);
    schedule[i].t < |e| && (ok <==> e[schedule[i].t] == Reading || e[schedule[i].t] == Writing)
  }

  ghost predicate AllAnswered(pcs: seq<Pc>, schedule: seq<Step>, answers: seq<bool>) {
    && IsRun(Meant, pcs, schedule) && |answers| <= |schedule|
    && forall i :: 0 <= i < |answers| ==> Answered(pcs, schedule, i, answers[i])
  }

  lemma AnswersSnoc(pcs: seq<Pc>, schedule: seq<Step>, answers: seq<bool>, ok: bool)
    requires AllAnswered(pcs, schedule, answers) && Answered(pcs, schedule, |answers|, ok)
    ensures AllAnswered(pcs, schedule, answers + [ok])
  {
    hide IsRun;
  }

  /** The object under any schedule: its threads stand where they are meant to, and each call is answered by whether
      its thread is meant to hold the lock. */
  method Drive(lock: SmartRWLock, schedule: seq<Step>) returns (answers: seq<bool>)
    requires IsRun(Next, lock.View(), schedule) && Inv(lock.View())
    modifies lock
    ensures lock.View() == After(Next, old(lock.View()), schedule) && Inv(lock.View())
    ensures |answers| == |schedule| && AllAnswered(old(lock.pcs), schedule, answers)
    ensures lock.pcs == After(Meant, old(lock.pcs), schedule)
  {
    ghost var start := lock.View();
    answers := [];
    FirstStep(start, schedule);
    lock.ViewPcs();
    hide *;
    for i := 0 to |schedule|
      invariant Inv(lock.View()) && AtStep(lock.View(), start, schedule, i)
      invariant |answers| == i && AllAnswered(start.pcs, schedule, answers)
    {
      NextStep(lock.View(), start, schedule, i);
      var ok := lock.Perform(schedule[i]);
      lock.ViewPcs();
      AnswerIs(start, lock.View(), schedule, i, ok);
      AnswersSnoc(start.pcs, schedule, answers, ok);
      answers := answers + [ok];
    }
    LastStep(lock.View(), start, schedule);
    lock.ViewPcs();
  }

  /** Where the schedule has led after i steps. */
  ghost predicate AtStep(s: State, start: State, schedule: seq<Step>, i: nat) {
    RunPrefix(Next, start, schedule, i) && s == After(Next, start, schedule[..i])
  }

  lemma FirstStep(start: State, schedule: seq<Step>)
    requires IsRun(Next, start, schedule) && Inv(start)
    ensures AtStep(start, start, schedule, 0) && AllAnswered(start.pcs, schedule, [])
  {
    RunAt(Next, start, schedule, 0);
    RunsAsMeant(start, schedule);
  }

  lemma NextStep(s: State, start: State, schedule: seq<Step>, i: nat)
    requires Inv(s) && IsRun(Next, start, schedule) && i < |schedule| && AtStep(s, start, schedule, i)
    ensures Enabled(s, schedule[i]) && Inv(Next(s, schedule[i])) && AtStep(Next(s, schedule[i]), start, schedule, i + 1)
  {
    RunAt(Next, start, schedule, i);
    StepInv(s, schedule[i]);
  }

  lemma LastStep(s: State, start: State, schedule: seq<Step>)
    requires IsRun(Next, start, schedule) && Inv(start) && AtStep(s, start, schedule, |schedule|)
    ensures s == After(Next, start, schedule) && IsRun(Meant, start.pcs, schedule) && s.pcs == After(Meant, start.pcs, schedule)
  {
    assert schedule[..|schedule|] == schedule;
    RunsAsMeant(start, schedule);
  }

  lemma AnswerIs(start: State, s: State, schedule: seq<Step>, i: nat, ok: bool)
    requires Inv(start) && IsRun(Next, start, schedule) && i < |schedule|
    requires AtStep(s, start, schedule, i + 1) && schedule[i].t < |s.pcs|
    requires ok <==> s.pcs[schedule[i].t] == Reading || s.pcs[schedule[i].t] == Writing
    ensures IsRun(Meant, start.pcs, schedule) && Answered(start.pcs, schedule, i, ok)
  {
    hide Inv, Next, Meant;
    RunsAsMeant(start, schedule);
    RunsAsMeant(start, schedule[..i + 1]);
  }
}
