/** The plain read-write locks, threaded and asyncio (shutils/rwlock.py).

    A writer keeps the condition variable's mutex from entering to releasing, and gives it up only
    while it is parked; a reader holds the mutex just long enough to move the counter. `held` says that
    the mutex is held between steps. A step that needs the mutex is enabled only while it is free. */
module RWLocks {
  import opened LockThreads
  import opened Runs
  import opened RWSpec

  datatype State = State(readers: int, held: bool, pcs: seq<Pc>)

  datatype Step = AcquireRead(t: Tid) | ReleaseRead(t: Tid) | AcquireWrite(t: Tid) | ResumeWrite(t: Tid) | ReleaseWrite(t: Tid)

  predicate Enabled(s: State, step: Step) {
    step.t < |s.pcs| &&
    match step
    case AcquireRead(t) => s.pcs[t].Idle? && !s.held
    case ReleaseRead(t) => s.pcs[t].Reading? && !s.held
    case AcquireWrite(t) => s.pcs[t].Idle? && !s.held
    case ResumeWrite(t) => s.pcs[t].WriteWoken? && !s.held
    case ReleaseWrite(t) => s.pcs[t].Writing?
  }

  /** The wait loop of `_acquire_write`, entered with the mutex. */
  function EnterWrite(s: State, t: Tid): State
    requires t < |s.pcs|
  {
    if s.readers > 0 then s.(pcs := s.pcs[t := WriteParked], held := false)
    else s.(pcs := s.pcs[t := Writing], held := true)
  }

  function Next(s: State, step: Step): State
    requires Enabled(s, step)
  {
    match step
    case AcquireRead(t) => s.(pcs := s.pcs[t := Reading], readers := s.readers + 1)
    case ReleaseRead(t) =>
      var pcs := s.pcs[t := Idle];
      s.(readers := s.readers - 1, pcs := if s.readers - 1 == 0 then WakeAll(pcs) else pcs)
    case AcquireWrite(t) => EnterWrite(s, t)
    case ResumeWrite(t) => EnterWrite(s, t)
    case ReleaseWrite(t) => s.(pcs := s.pcs[t := Idle], held := false)
  }

  ghost predicate Inv(s: State) {
    && s.readers == Count(s.pcs, Reading)
    && Count(s.pcs, Writing) == (if s.held then 1 else 0)
    && (s.held ==> s.readers == 0)
    && (Count(s.pcs, WriteParked) > 0 ==> s.readers > 0)
    && Count(s.pcs, ReadParked) == Count(s.pcs, ReadWoken) == 0
  }

  function Init(n: nat): State {
    State(0, false, seq(n, i => Idle))
  }

  lemma InitInv(n: nat)
    ensures Inv(Init(n))
  {
    forall p | p != Idle ensures Count(Init(n).pcs, p) == 0 {
      assert p !in Init(n).pcs;
    }
  }

  /** Every critical section, in any interleaving, keeps the invariant. */
  lemma StepInv(s: State, step: Step)
    requires Inv(s) && Enabled(s, step)
    ensures Inv(Next(s, step)) && |Next(s, step).pcs| == |s.pcs|
  {
    match step {
      case AcquireRead(t) => AcquireReadInv(s, t); hide Inv;
      case ReleaseRead(t) => ReleaseReadInv(s, t); hide Inv, WakeAll;
      case AcquireWrite(t) => EnterWriteInv(s, t); hide Inv;
      case ResumeWrite(t) => EnterWriteInv(s, t); hide Inv;
      case ReleaseWrite(t) => ReleaseWriteInv(s, t); hide Inv;
    }
  }

  lemma AcquireReadInv(s: State, t: Tid)
    requires Inv(s) && Enabled(s, AcquireRead(t))
    ensures Inv(Next(s, AcquireRead(t)))
  {
    MovedCount(s.pcs, t, Reading);
    hide Count;
  }

  lemma EnterWriteInv(s: State, t: Tid)
    requires Inv(s) && t < |s.pcs| && !s.held && (s.pcs[t].Idle? || s.pcs[t].WriteWoken?)
    ensures Inv(EnterWrite(s, t)) && |EnterWrite(s, t).pcs| == |s.pcs|
  {
    MovedCount(s.pcs, t, Writing);
    MovedCount(s.pcs, t, WriteParked);
    hide Count;
  }

  lemma ReleaseWriteInv(s: State, t: Tid)
    requires Inv(s) && Enabled(s, ReleaseWrite(t))
    ensures Inv(Next(s, ReleaseWrite(t)))
  {
    MovedCount(s.pcs, t, Idle);
    hide Count;
  }

  lemma ReleaseReadInv(s: State, t: Tid)
    requires Inv(s) && Enabled(s, ReleaseRead(t))
    ensures Inv(Next(s, ReleaseRead(t)))
  {
    MovedCount(s.pcs, t, Idle);
    WokenCounts(s.pcs[t := Idle]);
    hide WakeAll, Count;
  }

  lemma {:induction false} RunInv(s: State, steps: seq<Step>)
    requires Inv(s) && IsRun(Next, s, steps)
    ensures Inv(After(Next, s, steps)) && |After(Next, s, steps).pcs| == |s.pcs|
    decreases |steps|
  {
    if steps != [] {
      StepInv(s, steps[0]);
      RunInv(Next(s, steps[0]), steps[1..]);
    }
  }

  /** In every interleaving: the reader count is 0 throughout a write hold, there is one writer at most,
      and a writer that is parked and not notified still has a live reader to wait for. */
  lemma MutualExclusionNoLostWakeup(n: nat, steps: seq<Step>)
    requires IsRun(Next, Init(n), steps)
    ensures var s := After(Next, Init(n), steps);
      && (forall t, u :: 0 <= t < |s.pcs| && 0 <= u < |s.pcs| && t != u && s.pcs[t] == Writing ==>
            s.readers == 0 && s.pcs[u] != Writing && s.pcs[u] != Reading)
      && (forall t :: 0 <= t < |s.pcs| && s.pcs[t] == WriteParked ==>
            exists u :: 0 <= u < |s.pcs| && s.pcs[u] == Reading)
  {
    InitInv(n);
    RunInv(Init(n), steps);
    var s := After(Next, Init(n), steps);
    forall t, u | 0 <= t < |s.pcs| && 0 <= u < |s.pcs| && t != u && s.pcs[t] == Writing
      ensures s.readers == 0 && s.pcs[u] != Writing && s.pcs[u] != Reading
    {
      assert Writing in multiset(s.pcs);
      assert s.pcs[u] == Reading ==> Reading in multiset(s.pcs);
      if s.pcs[u] == Writing {
        TwoAt(s.pcs, t, u, Writing);
      }
    }
    forall t | 0 <= t < |s.pcs| && s.pcs[t] == WriteParked
      ensures exists u :: 0 <= u < |s.pcs| && s.pcs[u] == Reading
    {
      assert s.pcs[t] in multiset(s.pcs);
      var u := SomeoneAt(s.pcs, Reading);
    }
  }

  /** Releasing a read hold takes the mutex, and never blocks: the mutex is free while anyone reads. */
  lemma ReadersCanLeave(s: State, t: Tid)
    requires Inv(s) && t < |s.pcs| && s.pcs[t] == Reading
    ensures Enabled(s, ReleaseRead(t))
  {
    assert s.pcs[t] in multiset(s.pcs);
  }

  // ---------------------------------------------------------------- draining

  predicate Drains(step: Step) { step.ReleaseRead? || step.ReleaseWrite? || step.ResumeWrite? }

  function Busy(s: State): nat { |s.pcs| - Count(s.pcs, Idle) }

  lemma OneDrains(s: State) returns (steps: seq<Step>)
    requires Inv(s) && Busy(s) > 0
    ensures IsRun(Next, s, steps) && (forall a :: a in steps ==> Drains(a)) && steps != []
    ensures Inv(After(Next, s, steps)) && Busy(After(Next, s, steps)) < Busy(s)
  {
    AllPlaces(s.pcs);
    if s.held {
      var u := SomeoneAt(s.pcs, Writing);
      steps := Leave(s, ReleaseWrite(u));
    } else if s.readers > 0 {
      var u := SomeoneAt(s.pcs, Reading);
      steps := Leave(s, ReleaseRead(u));
    } else {
      var u := SomeoneAt(s.pcs, WriteWoken);
      StepInv(s, ResumeWrite(u));
      var s1 := Next(s, ResumeWrite(u));
      var last := Leave(s1, ReleaseWrite(u));
      steps := [ResumeWrite(u)] + last;
      assert steps[1..] == last;
    }
  }

  lemma Leave(s: State, a: Step) returns (steps: seq<Step>)
    requires Inv(s) && Enabled(s, a) && (a.ReleaseRead? || a.ReleaseWrite?)
    ensures steps == [a] && IsRun(Next, s, steps) && After(Next, s, steps) == Next(s, a)
    ensures Inv(Next(s, a)) && |Next(s, a).pcs| == |s.pcs| && Busy(Next(s, a)) == Busy(s) - 1
  {
    StepInv(s, a);
    WakeAllCounts(s.pcs[a.t := Idle], Idle);
    steps := [a];
    assert steps[1..] == [];
  }

  /** From every reachable state all threads, a parked writer included, can get the lock and leave. */
  lemma {:induction false} CanDrain(s: State) returns (steps: seq<Step>)
    requires Inv(s)
    ensures IsRun(Next, s, steps) && (forall a :: a in steps ==> Drains(a))
    ensures forall t :: 0 <= t < |After(Next, s, steps).pcs| ==> After(Next, s, steps).pcs[t] == Idle
    decreases Busy(s)
  {
    steps := [];
    if Busy(s) > 0 {
      var a := OneDrains(s);
      var b := CanDrain(After(Next, s, a));
      RunsConcat(Next, s, a, b);
      steps := a + b;
    } else {
      AllPlaces(s.pcs);
      forall t | 0 <= t < |s.pcs| ensures s.pcs[t] == Idle {
        assert s.pcs[t] in multiset(s.pcs);
      }
    }
  }

  /** Reader b enters, then reader a leaves, while writer w is parked: w stays parked. */
  lemma TakeTurns(s: State, w: Tid, a: Tid, b: Tid)
    requires Inv(s) && w < |s.pcs| && a < |s.pcs| && b < |s.pcs| && a != b
    requires s.pcs[w] == WriteParked && s.pcs[a] == Reading && s.pcs[b] == Idle
    ensures Enabled(s, AcquireRead(b)) && Enabled(Next(s, AcquireRead(b)), ReleaseRead(a))
    ensures var s2 := Next(Next(s, AcquireRead(b)), ReleaseRead(a));
      Inv(s2) && |s2.pcs| == |s.pcs| && s2.pcs[w] == WriteParked && s2.pcs[a] == Idle && s2.pcs[b] == Reading
  {
    assert s.pcs[w] in multiset(s.pcs);
    StepInv(s, AcquireRead(b));
    var s1 := Next(s, AcquireRead(b));
    TwoAt(s1.pcs, a, b, Reading);
    StepInv(s1, ReleaseRead(a));
  }

  ghost predicate StaysParked(w: Tid, s: State) { w < |s.pcs| && s.pcs[w] == WriteParked }

  /** Unlike the writer-priority lock, readers that take turns can keep a parked writer waiting for as long as they
      like: for every length there is a run in which one reader enters and one leaves, over and over, and the writer
      stays parked throughout. */
  lemma {:induction false} ReadersCanStarveAWriter(s: State, w: Tid, a: Tid, b: Tid, rounds: nat) returns (steps: seq<Step>)
    requires Inv(s) && w < |s.pcs| && a < |s.pcs| && b < |s.pcs| && a != b
    requires s.pcs[w] == WriteParked && s.pcs[a] == Reading && s.pcs[b] == Idle
    ensures |steps| == 2 * rounds && IsRun(Next, s, steps) && Throughout(Next, t => StaysParked(w, t), s, steps)
    ensures forall i :: 0 <= i < rounds ==> steps[2 * i].AcquireRead? && steps[2 * i + 1].ReleaseRead?
    decreases rounds
  {
    steps := [];
    if rounds > 0 {
      TakeTurns(s, w, a, b);
      hide Inv;
      var enter, leave := AcquireRead(b), ReleaseRead(a);
      var s1 := Next(s, enter);
      var rest := ReadersCanStarveAWriter(Next(s1, leave), w, b, a, rounds - 1);
      steps := [enter, leave] + rest;
      assert steps[1..][1..] == rest && steps[1..][0] == leave;
      assert Throughout(Next, t => StaysParked(w, t), s1, steps[1..]);
      forall i | 0 <= i < rounds ensures steps[2 * i].AcquireRead? && steps[2 * i + 1].ReleaseRead? {
        if i > 0 { assert steps[2 * i] == rest[2 * (i - 1)] && steps[2 * i + 1] == rest[2 * (i - 1) + 1]; }
      }
    }
  }

  // ---------------------------------------------------------------- the lock without counters

  /** Where its thread must stand for a step; only the writer's release does without the mutex. */
  predicate MayStep(pcs: seq<Pc>, step: Step) {
    step.t < |pcs| && (step.ReleaseWrite? || Writing !in pcs) &&
    match step
    case AcquireRead(t) => pcs[t].Idle?
    case ReleaseRead(t) => pcs[t].Reading?
    case AcquireWrite(t) => pcs[t].Idle?
    case ResumeWrite(t) => pcs[t].WriteWoken?
    case ReleaseWrite(t) => pcs[t].Writing?
  }

  /** What the lock is meant to do, said of the threads' places alone. */
  function Meant(pcs: seq<Pc>, step: Step): seq<Pc>
    requires MayStep(pcs, step)
  {
    match step
    case AcquireRead(t) => pcs[t := Reading]
    case ReleaseRead(t) => if Reading in pcs[t := Idle] then pcs[t := Idle] else WakeAll(pcs[t := Idle])
    case AcquireWrite(t) => pcs[t := if Reading in pcs then WriteParked else Writing]
    case ResumeWrite(t) => pcs[t := if Reading in pcs then WriteParked else Writing]
    case ReleaseWrite(t) => pcs[t := Idle]
  }

  /** A step is possible exactly when the places allow it, and the threads then stand where they are meant to. */
  lemma StepAsMeant(s: State, step: Step)
    requires Inv(s)
    ensures Enabled(s, step) <==> MayStep(s.pcs, step)
    ensures Enabled(s, step) ==> Next(s, step).pcs == Meant(s.pcs, step)
  {
    CountIn(s.pcs, Writing);
    CountIn(s.pcs, Reading);
    if step.ReleaseRead? && step.t < |s.pcs| {
      CountIn(s.pcs[step.t := Idle], Reading);
      MovedCount(s.pcs, step.t, Idle);
    }
    hide WakeAll, Count;
  }

  lemma {:induction false} RunsAsMeant(s: State, steps: seq<Step>)
    requires Inv(s) && IsRun(Next, s, steps)
    ensures IsRun(Meant, s.pcs, steps) && After(Next, s, steps).pcs == After(Meant, s.pcs, steps)
    decreases |steps|
  {
    if steps != [] {
      StepAsMeant(s, steps[0]);
      StepInv(s, steps[0]);
      hide Inv, Next, Meant;
      RunsAsMeant(Next(s, steps[0]), steps[1..]);
    }
  }

  // ---------------------------------------------------------------- refinement

  lemma StepMoves(s: State, step: Step)
    requires Inv(s) && Enabled(s, step)
    ensures EntersOrLeaves(s.pcs, Next(s, step).pcs, step.t)
  {
    hide WakeAll;
    match step
    case AcquireRead(_) => case ReleaseRead(t) => LeavingMoves(s.pcs, t);
    case AcquireWrite(_) => case ResumeWrite(_) => case ReleaseWrite(t) => LeavingMoves(s.pcs, t);
  }

  /** Each critical section is one move of the same specification that the writer-priority lock refines. */
  lemma Refines(s: State, step: Step)
    requires Inv(s) && Enabled(s, step)
    ensures Exclusive(Holders(s.pcs)) && SpecStep(Holders(s.pcs), Holders(Next(s, step).pcs), step.t)
  {
    HoldersExclusive(s.pcs);
    StepMoves(s, step);
    hide Inv, EntersOrLeaves;
    HoldersMove(s.pcs, Next(s, step).pcs, step.t);
  }

  // ---------------------------------------------------------------- the object

  /** The lock object; `held` stands for the state of the condition variable's mutex. */
  class RWLock {
    var readers: int
    var held: bool
    ghost var pcs: seq<Pc>

    ghost function View(): State
      reads this
    {
      State(readers, held, pcs)
    }

    lemma ViewPcs()
      ensures View().pcs == pcs
    {
    }

    constructor (ghost n: nat)
      ensures View() == Init(n)
    {
      readers, held, pcs := 0, false, seq(n, i => Idle);
    }

    method AcquireReadLock(ghost t: Tid)
      requires Enabled(View(), AcquireRead(t))
      modifies this
      ensures View() == Next(old(View()), AcquireRead(t))
    {
      readers := readers + 1;
      pcs := pcs[t := Reading];
    }

    method ReleaseReadLock(ghost t: Tid)
      requires Enabled(View(), ReleaseRead(t))
      modifies this
      ensures View() == Next(old(View()), ReleaseRead(t))
    {
      readers := readers - 1;
      pcs := pcs[t := Idle];
      if readers == 0 {
        pcs := WakeAll(pcs);
      }
    }

    /** One turn of the wait loop: false means that the thread has parked and let go of the mutex. */
    method AcquireWriteLock(ghost t: Tid) returns (entered: bool)
      requires Enabled(View(), AcquireWrite(t)) || Enabled(View(), ResumeWrite(t))
      modifies this
      ensures View() == EnterWrite(old(View()), t) && (entered <==> pcs[t] == Writing)
      ensures Inv(old(View())) ==> (entered <==> Reading !in old(pcs)) && pcs == old(pcs)[t := if entered then Writing else WriteParked]
    {
      CountIn(pcs, Reading);
      held := true;
      if readers > 0 {
        held := false;
        pcs := pcs[t := WriteParked];
        return false;
      }
      pcs := pcs[t := Writing];
      return true;
    }

    method ReleaseWriteLock(ghost t: Tid)
      requires Enabled(View(), ReleaseWrite(t))
      modifies this
      ensures View() == Next(old(View()), ReleaseWrite(t))
    {
      held := false;
      pcs := pcs[t := Idle];
    }

    /** The answer of a step: whether its thread now holds the lock. */
    method Perform(step: Step) returns (ok: bool)
      requires Enabled(View(), step)
      modifies this
      ensures View() == Next(old(View()), step) && step.t < |pcs|
      ensures ok <==> pcs[step.t] == Reading || pcs[step.t] == Writing
    {
      ok := false;
      match step
      case AcquireRead(t) => AcquireReadLock(t); ok := true;
      case ReleaseRead(t) => ReleaseReadLock(t);
      case AcquireWrite(t) => ok := AcquireWriteLock(t);
      case ResumeWrite(t) => ok := AcquireWriteLock(t);
      case ReleaseWrite(t) => ReleaseWriteLock(t);
    }
  }

  /** After i steps of the schedule its last step was answered as meant. */
  ghost predicate Answered(pcs: seq<Pc>, schedule: seq<Step>, i: nat, ok: bool)
    requires IsRun(Meant, pcs, schedule)
  {
    i < |schedule| &&
    RunPrefix(Meant, pcs, schedule, i + 1) &&
    var e := After(Meant, pcs, schedule[..i + 1]);
    schedule[i].t < |e| && (ok <==> e[schedule[i].t] == Reading || e[schedule[i].t] == Writing)
  }

  ghost predicate AllAnswered(pcs: seq<Pc>, schedule: seq<Step>, answers: seq<bool>) {
    && IsRun(Meant, pcs, schedule) && |answers| <= |schedule|
    && forall i :: 0 <= i < |answers| ==> Answered(pcs, schedule, i, answers[i])
  }

  lemma AnswersSnoc(pcs: seq<Pc>, schedule: seq<Step>, answers: seq<bool>, ok: bool)
    requires AllAnswered(pcs, schedule, answers) && Answered(pcs, schedule, |answers|, ok)
    ensures AllAnswered(pcs, schedule, answers + [ok])
  {
    hide IsRun;
  }

  /** The object under any schedule: its threads stand where they are meant to, and each call is answered by whether
      its thread is meant to hold the lock. */
  method Drive(lock: RWLock, schedule: seq<Step>) returns (answers: seq<bool>)
    requires IsRun(Next, lock.View(), schedule) && Inv(lock.View())
    modifies lock
    ensures lock.View() == After(Next, old(lock.View()), schedule) && Inv(lock.View())
    ensures |answers| == |schedule| && AllAnswered(old(lock.pcs), schedule, answers)
    ensures lock.pcs == After(Meant, old(lock.pcs), schedule)
  {
    ghost var start := lock.View();
    answers := [];
    FirstStep(start, schedule);
    lock.ViewPcs();
    hide *;
    for i := 0 to |schedule|
      invariant Inv(lock.View()) && AtStep(lock.View(), start, schedule, i)
      invariant |answers| == i && AllAnswered(start.pcs, schedule, answers)
    {
      NextStep(lock.View(), start, schedule, i);
      var ok := lock.Perform(schedule[i]);
      lock.ViewPcs();
      AnswerIs(start, lock.View(), schedule, i, ok);
      AnswersSnoc(start.pcs, schedule, answers, ok);
      answers := answers + [ok];
    }
    LastStep(lock.View(), start, schedule);
    lock.ViewPcs();
  }

  /** Where the schedule has led after i steps. */
  ghost predicate AtStep(s: State, start: State, schedule: seq<Step>, i: nat) {
    RunPrefix(Next, start, schedule, i) && s == After(Next, start, schedule[..i])
  }

  lemma FirstStep(start: State, schedule: seq<Step>)
    requires IsRun(Next, start, schedule) && Inv(start)
    ensures AtStep(start, start, schedule, 0) && AllAnswered(start.pcs, schedule, [])
  {
    RunAt(Next, start, schedule, 0);
    RunsAsMeant(start, schedule);
  }

  lemma NextStep(s: State, start: State, schedule: seq<Step>, i: nat)
    requires Inv(s) && IsRun(Next, start, schedule) && i < |schedule| && AtStep(s, start, schedule, i)
    ensures Enabled(s, schedule[i]) && Inv(Next(s, schedule[i])) && AtStep(Next(s, schedule[i]), start, schedule, i + 1)
  {
    RunAt(Next, start, schedule, i);
    StepInv(s, schedule[i]);
  }

  lemma LastStep(s: State, start: State, schedule: seq<Step>)
    requires IsRun(Next, start, schedule) && Inv(start) && AtStep(s, start, schedule, |schedule|)
    ensures s == After(Next, start, schedule) && IsRun(Meant, start.pcs, schedule) && s.pcs == After(Meant, start.pcs, schedule)
  {
    assert schedule[..|schedule|] == schedule;
    RunsAsMeant(start, schedule);
  }

  lemma AnswerIs(start: State, s: State, schedule: seq<Step>, i: nat, ok: bool)
    requires Inv(start) && IsRun(Next, start, schedule) && i < |schedule|
    requires AtStep(s, start, schedule, i + 1) && schedule[i].t < |s.pcs|
    requires ok <==> s.pcs[schedule[i].t] == Reading || s.pcs[schedule[i].t] == Writing
    ensures IsRun(Meant, start.pcs, schedule) && Answered(start.pcs, schedule, i, ok)
  {
    hide Inv, Next, Meant;
    RunsAsMeant(start, schedule);
    RunsAsMeant(start, schedule[..i + 1]);
  }
}
