/** The queue shared by threads and coroutines (shutils/dag/lib/aio_queue.py).

    Every critical section is one step. A call that cannot go on parks: a coroutine's future joins a
    deque, a thread waits on a condition variable. A put or get then wakes one waiter of the other
    side, coroutines first; a woken waiter looks at its guard again when it runs. */
module AioQueues {
  import opened Runs

  type Tid = nat

  datatype Caller = Caller(t: Tid, isAsync: bool)

  datatype Offer = Offer(who: Caller, item: int)

  datatype Discipline = Fifo | Priority

  // ---------------------------------------------------------------- waiters

  /** Those who wait for one event: parked coroutines and threads in arrival order, and the waiters
      that have been woken and have not run yet. */
  datatype Waiters<!W(==)> = Waiters(parkedAsync: seq<W>, parkedSync: seq<W>, woken: multiset<W>) {
    function Parked(): nat { |parkedAsync| + |parkedSync| }

    /** The parked waiters in the order in which they will be woken. */
    function Line(): seq<W> { parkedAsync + parkedSync }

    /** Everybody who waits, parked or woken. */
    function All(): multiset<W> { multiset(parkedAsync) + multiset(parkedSync) + woken }

    function Waiting(): nat { Parked() + |woken| }

    function Park(w: W, isAsync: bool): Waiters<W> {
      if isAsync then this.(parkedAsync := parkedAsync + [w]) else this.(parkedSync := parkedSync + [w])
    }

    /** `_wakeup_next` on the futures if there are any, otherwise `notify` on the condition. */
    function WakeOne(): Waiters<W> {
      if parkedAsync != [] then this.(parkedAsync := parkedAsync[1..], woken := woken + multiset{parkedAsync[0]})
      else if parkedSync != [] then this.(parkedSync := parkedSync[1..], woken := woken + multiset{parkedSync[0]})
      else this
    }

    /** `task_done` reaching zero: every parked thread, but only the first parked coroutine. */
    function WakeJoiners(): Waiters<W> {
      var w := woken + multiset(parkedSync);
      if parkedAsync == [] then Waiters([], [], w)
      else Waiters(parkedAsync[1..], [], w + multiset{parkedAsync[0]})
    }

    function Run(w: W): Waiters<W> {
      this.(woken := woken - multiset{w})
    }
  }

  function WakeTimes<W>(ws: Waiters<W>, n: nat): Waiters<W>
    decreases n
  {
    if n == 0 then ws else WakeTimes(ws.WakeOne(), n - 1)
  }

  lemma WakeOneTakesFirst<W>(ws: Waiters<W>)
    requires ws.Line() != []
    ensures ws.WakeOne().Line() == ws.Line()[1..]
    ensures ws.WakeOne().woken == ws.woken + multiset{ws.Line()[0]}
  {
  }

  /** Waiters are woken in the order of their arrival, and no thread before a coroutine: the waiter with n
      others ahead of it is the one that the next wakeup after n of them takes. */
  lemma {:induction false} WokenInTurn<W>(ws: Waiters<W>, n: nat)
    requires n < |ws.Line()|
    ensures WakeTimes(ws, n).Line() == ws.Line()[n..]
    ensures WakeTimes(ws, n + 1).woken == WakeTimes(ws, n).woken + multiset{ws.Line()[n]}
    decreases n
  {
    WakeOneTakesFirst(ws);
    if n > 0 {
      WokenInTurn(ws.WakeOne(), n - 1);
      assert ws.Line()[1..][n - 1..] == ws.Line()[n..];
    } else {
      assert WakeTimes(ws, 1) == WakeTimes(ws.WakeOne(), 0);
    }
  }

  // ---------------------------------------------------------------- states

  /** `put`, `got` and `done` are the history: items put, items handed out, task_done calls accepted. */
  datatype State = State(
    discipline: Discipline, maxsize: int, items: seq<int>, unfinished: int,
    getters: Waiters<Caller>, putters: Waiters<Offer>, joiners: Waiters<Caller>,
    put: seq<int>, got: seq<int>, done: nat)

  datatype Step =
    | Get(c: Caller) | ResumeGet(c: Caller) | GetNowait
    | Put(o: Offer) | ResumePut(o: Offer) | PutNowait(item: int)
    | TaskDone
    | Join(c: Caller) | ResumeJoin(c: Caller)

  datatype Outcome = Finished | Took(item: int) | Parks | QueueEmpty | QueueFull | TooManyDone

  predicate Full(s: State) { 0 < s.maxsize <= |s.items| }

  /** Index of the item that a get hands out. */
  function Pick(d: Discipline, items: seq<int>): (k: nat)
    requires items != []
    ensures k < |items|
    ensures d.Fifo? ==> k == 0
    ensures d.Priority? ==> forall j :: 0 <= j < |items| ==> items[k] <= items[j]
  {
    if d.Fifo? || |items| == 1 then 0
    else
      var m := Pick(d, items[..|items| - 1]);
      if items[|items| - 1] < items[m] then |items| - 1 else m
  }

  function Removed(items: seq<int>, k: nat): seq<int>
    requires k < |items|
  {
    items[..k] + items[k + 1..]
  }

  function Insert(s: State, item: int): State {
    s.(items := s.items + [item], put := s.put + [item], unfinished := s.unfinished + 1,
       getters := s.getters.WakeOne())
  }

  function Extract(s: State): State
    requires s.items != []
  {
    var k := Pick(s.discipline, s.items);
    s.(items := Removed(s.items, k), got := s.got + [s.items[k]],
       putters := if s.maxsize > 0 then s.putters.WakeOne() else s.putters)
  }

  function GetTurn(s: State, c: Caller): State {
    if s.items == [] then s.(getters := s.getters.Park(c, c.isAsync)) else Extract(s)
  }

  function PutTurn(s: State, o: Offer): State {
    if Full(s) then s.(putters := s.putters.Park(o, o.who.isAsync)) else Insert(s, o.item)
  }

  function JoinTurn(s: State, c: Caller): State {
    if s.unfinished != 0 then s.(joiners := s.joiners.Park(c, c.isAsync)) else s
  }

  /** A waiter can go on only once it has been woken. */
  predicate Enabled(s: State, step: Step) {
    match step
    case ResumeGet(c) => c in s.getters.woken
    case ResumePut(o) => o in s.putters.woken
    case ResumeJoin(c) => c in s.joiners.woken
    case _ => true
  }

  function Next(s: State, step: Step): State
    requires Enabled(s, step)
  {
    match step
    case Get(c) => GetTurn(s, c)
    case ResumeGet(c) => GetTurn(s.(getters := s.getters.Run(c)), c)
    case GetNowait => if s.items == [] then s else Extract(s)
    case Put(o) => PutTurn(s, o)
    case ResumePut(o) => PutTurn(s.(putters := s.putters.Run(o)), o)
    case PutNowait(item) => if Full(s) then s else Insert(s, item)
    case TaskDone =>
      if s.unfinished - 1 < 0 then s
      else
        var s1 := s.(unfinished := s.unfinished - 1, done := s.done + 1);
        if s1.unfinished == 0 then s1.(joiners := s1.joiners.WakeJoiners()) else s1
    case Join(c) => JoinTurn(s, c)
    case ResumeJoin(c) => JoinTurn(s.(joiners := s.joiners.Run(c)), c)
  }

  // ---------------------------------------------------------------- invariant

  /** At least as many getters are woken and on their way as there are items, while any is parked. */
  ghost predicate GettersSeen(s: State) {
    s.getters.Parked() > 0 ==> |s.getters.woken| >= |s.items|
  }

  /** At least as many putters are woken and on their way as there are free slots, while any is parked. */
  ghost predicate PuttersSeen(s: State) {
    s.putters.Parked() > 0 ==> s.maxsize > 0 && |s.putters.woken| >= s.maxsize - |s.items|
  }

  ghost predicate Conserved(s: State) {
    && multiset(s.put) == multiset(s.got) + multiset(s.items)
    && (s.discipline.Fifo? ==> s.put == s.got + s.items)
  }

  ghost predicate Bounded(s: State) { s.maxsize > 0 ==> |s.items| <= s.maxsize }

  ghost predicate Accounted(s: State) {
    s.unfinished == |s.put| - s.done >= 0 && (s.joiners.parkedSync != [] ==> s.unfinished > 0)
  }

  ghost predicate Inv(s: State) {
    GettersSeen(s) && PuttersSeen(s) && Conserved(s) && Bounded(s) && Accounted(s)
  }

  function Init(d: Discipline, maxsize: int): State {
    var none := Waiters([], [], multiset{});
    State(d, maxsize, [], 0, none, Waiters([], [], multiset{}), none, [], [], 0)
  }

  lemma RemovedBag(items: seq<int>, k: nat)
    requires k < |items|
    ensures multiset(items) == multiset{items[k]} + multiset(Removed(items, k))
  {
    assert items == items[..k] + [items[k]] + items[k + 1..];
  }

  lemma ExtractKeeps(s: State)
    requires Conserved(s) && Bounded(s) && s.items != []
    requires PuttersSeen(s)
    ensures Conserved(Extract(s)) && Bounded(Extract(s)) && PuttersSeen(Extract(s))
    ensures Extract(s).putters.Waiting() == s.putters.Waiting()
  {
    RemovedBag(s.items, Pick(s.discipline, s.items));
  }

  lemma InsertKeeps(s: State, item: int)
    requires Conserved(s) && Bounded(s) && GettersSeen(s) && !Full(s)
    ensures Conserved(Insert(s, item)) && Bounded(Insert(s, item)) && GettersSeen(Insert(s, item))
    ensures Insert(s, item).getters.Waiting() == s.getters.Waiting()
  {
    assert (s.got + s.items) + [item] == s.got + (s.items + [item]);
  }

  lemma GetTurnInv(s: State, s1: State, c: Caller)
    requires Inv(s) && (s1 == s || (c in s.getters.woken && s1 == s.(getters := s.getters.Run(c))))
    ensures Inv(GetTurn(s1, c))
  {
    if s1.items != [] { ExtractKeeps(s1); }
  }

  lemma PutTurnInv(s: State, s1: State, o: Offer)
    requires Inv(s) && (s1 == s || (o in s.putters.woken && s1 == s.(putters := s.putters.Run(o))))
    ensures Inv(PutTurn(s1, o))
  {
    if !Full(s1) { InsertKeeps(s1, o.item); }
  }

  /** Every critical section, in any interleaving, keeps the invariant. */
  lemma StepInv(s: State, step: Step)
    requires Inv(s) && Enabled(s, step)
    ensures Inv(Next(s, step))
  {
    hide GettersSeen, PuttersSeen, Conserved, Bounded;
    match step
    case Get(c) => GetTurnInv(s, s, c);
    case ResumeGet(c) => GetTurnInv(s, s.(getters := s.getters.Run(c)), c);
    case GetNowait => GetTurnInv(s, s, Caller(0, false));
    case Put(o) => PutTurnInv(s, s, o);
    case ResumePut(o) => PutTurnInv(s, s.(putters := s.putters.Run(o)), o);
    case PutNowait(item) => PutTurnInv(s, s, Offer(Caller(0, false), item));
    case TaskDone => JoinSideInv(s, Next(s, step));
    case Join(c) => JoinSideInv(s, Next(s, step));
    case ResumeJoin(c) => JoinSideInv(s, Next(s, step));
  }

  lemma JoinSideInv(s: State, s': State)
    requires Inv(s) && Accounted(s')
    requires s' == s.(unfinished := s'.unfinished, done := s'.done, joiners := s'.joiners)
    ensures Inv(s')
  {
  }

  // ---------------------------------------------------------------- runs

  lemma {:induction false} RunInv(s: State, steps: seq<Step>)
    requires Inv(s) && IsRun(Next, s, steps)
    ensures Inv(After(Next, s, steps))
    ensures After(Next, s, steps).maxsize == s.maxsize && After(Next, s, steps).discipline == s.discipline
    decreases |steps|
  {
    if steps != [] {
      StepInv(s, steps[0]);
      RunInv(Next(s, steps[0]), steps[1..]);
    }
  }

  /** Items got plus items queued are the items put, in order for the FIFO queue; a positive maxsize
      is never exceeded; and no wakeup is lost on either side. */
  lemma NothingLostNoWakeupLost(d: Discipline, maxsize: int, steps: seq<Step>)
    requires IsRun(Next, Init(d, maxsize), steps)
    ensures var s := After(Next, Init(d, maxsize), steps);
      && multiset(s.put) == multiset(s.got) + multiset(s.items)
      && (d.Fifo? ==> s.put == s.got + s.items)
      && (maxsize > 0 ==> |s.items| <= maxsize)
      && (s.getters.Parked() > 0 ==> |s.getters.woken| >= |s.items|)
      && (s.putters.Parked() > 0 ==> maxsize > 0 && |s.putters.woken| >= maxsize - |s.items|)
      && s.unfinished == |s.put| - s.done >= 0
  {
    RunInv(Init(d, maxsize), steps);
  }

  /** Nobody is left asleep for good: with nobody woken, a parked getter means an empty queue, a parked
      putter a full one, and getters and putters are never both parked. */
  lemma SettledMeans(s: State)
    requires Inv(s) && s.getters.woken == multiset{} && s.putters.woken == multiset{}
    ensures s.getters.Parked() > 0 ==> s.items == []
    ensures s.putters.Parked() > 0 ==> Full(s)
    ensures s.getters.Parked() == 0 || s.putters.Parked() == 0
  {
  }

  // ---------------------------------------------------------------- woken waiters come to rest

  predicate Resumes(step: Step) { step.ResumeGet? || step.ResumePut? }

  function Rank(s: State): nat {
    s.getters.Waiting() + |s.getters.woken| + s.putters.Waiting() + |s.putters.woken|
  }

  /** A woken waiter that runs either finishes its call or parks again; each lowers the rank, although
      finishing wakes a waiter of the other side. */
  lemma ResumeLowersRank(s: State, step: Step)
    requires Enabled(s, step) && Resumes(step)
    ensures Rank(Next(s, step)) < Rank(s)
  {
    match step {
      case ResumeGet(c) =>
        RunSizes(s.getters, c, c.isAsync);
        WakeSizes(s.putters);
        hide Waiters.Run, Waiters.Park, Waiters.WakeOne, Waiters.Waiting;
      case ResumePut(o) =>
        RunSizes(s.putters, o, o.who.isAsync);
        WakeSizes(s.getters);
        hide Waiters.Run, Waiters.Park, Waiters.WakeOne, Waiters.Waiting;
    }
  }

  lemma RunSizes<W>(ws: Waiters<W>, w: W, isAsync: bool)
    requires w in ws.woken
    ensures |ws.Run(w).woken| == |ws.woken| - 1 && ws.Run(w).Waiting() == ws.Waiting() - 1
    ensures ws.Run(w).Park(w, isAsync).Waiting() == ws.Waiting() && |ws.Run(w).Park(w, isAsync).woken| == |ws.woken| - 1
  {
  }

  lemma WakeSizes<W>(ws: Waiters<W>)
    ensures ws.WakeOne().Waiting() == ws.Waiting() && |ws.WakeOne().woken| <= |ws.woken| + 1
  {
  }

  /** Whatever the order in which woken waiters run, they come to rest after boundedly many turns. */
  lemma {:induction false} ResumesEnd(s: State, steps: seq<Step>)
    requires IsRun(Next, s, steps) && (forall a :: a in steps ==> Resumes(a))
    ensures |steps| <= Rank(s)
    decreases |steps|
  {
    if steps != [] {
      ResumeLowersRank(s, steps[0]);
      ResumesEnd(Next(s, steps[0]), steps[1..]);
    }
  }

  /** And they can always come to rest; then every waiter still parked has a reason to be. */
  lemma {:induction false} Settle(s: State) returns (steps: seq<Step>)
    requires Inv(s)
    ensures IsRun(Next, s, steps) && (forall a :: a in steps ==> Resumes(a))
    ensures var e := After(Next, s, steps);
      && (e.getters.Parked() > 0 ==> e.items == []) && (e.putters.Parked() > 0 ==> Full(e))
      && e.getters.woken == multiset{} && e.putters.woken == multiset{}
    decreases Rank(s)
  {
    steps := [];
    if s.getters.woken != multiset{} || s.putters.woken != multiset{} {
      var a: Step;
      if s.getters.woken != multiset{} {
        var c :| c in s.getters.woken;
        a := ResumeGet(c);
      } else {
        var o :| o in s.putters.woken;
        a := ResumePut(o);
      }
      StepInv(s, a);
      ResumeLowersRank(s, a);
      var rest := Settle(Next(s, a));
      steps := [a] + rest;
      assert steps[1..] == rest;
    } else {
      SettledMeans(s);
    }
  }

  // ---------------------------------------------------------------- join

  /** A coroutine in join is stranded: nothing is unfinished and its future has not been resolved. */
  predicate Stranded(s: State) { s.unfinished == 0 && s.joiners.parkedAsync != [] }

  /** Exactly when join loses a wakeup: the last task_done resolves one coroutine's future only.
      Threads in join are all woken. */
  lemma StrandedIff(s: State, step: Step)
    requires Inv(s) && Enabled(s, step) && !Stranded(s)
    ensures Stranded(Next(s, step)) <==> step.TaskDone? && s.unfinished == 1 && |s.joiners.parkedAsync| >= 2
    ensures Next(s, step).unfinished == 0 ==> Next(s, step).joiners.parkedSync == []
  {
    StepInv(s, step);
  }

  /** Such a state can be reached: one item put, two coroutines join, and task_done is called once. */
  lemma JoinersCanBeStranded(d: Discipline, maxsize: int, a: Tid, b: Tid)
    ensures var steps := [PutNowait(0), Join(Caller(a, true)), Join(Caller(b, true)), TaskDone];
      IsRun(Next, Init(d, maxsize), steps) && Stranded(After(Next, Init(d, maxsize), steps))
  {
    var x, y := Caller(a, true), Caller(b, true);
    var s0 := Init(d, maxsize);
    var s1 := Next(s0, PutNowait(0));
    var s2 := Next(s1, Join(x));
    var s3 := Next(s2, Join(y));
    assert s3.joiners.parkedAsync == [x, y];
    assert Enabled(s3, TaskDone);
    OneStep(Next, s3, TaskDone);
    Cons(Next, s2, Join(y), [TaskDone]);
    Cons(Next, s1, Join(x), [Join(y), TaskDone]);
    Cons(Next, s0, PutNowait(0), [Join(x), Join(y), TaskDone]);
    assert [PutNowait(0)] + [Join(x), Join(y), TaskDone] == [PutNowait(0), Join(x), Join(y), TaskDone];
  }

  /** task_done is refused exactly when as many calls were accepted as items were ever put. */
  lemma TaskDoneRefusedIff(d: Discipline, maxsize: int, steps: seq<Step>)
    requires IsRun(Next, Init(d, maxsize), steps)
    ensures var s := After(Next, Init(d, maxsize), steps);
      Next(s, TaskDone) == s <==> |s.put| == s.done
  {
    RunInv(Init(d, maxsize), steps);
  }

  // ---------------------------------------------------------------- what the calls are meant to do

  /** What callers can know of a queue: what was put and got and marked done, and whose calls have not returned. */
  datatype Ledger = Ledger(put: seq<int>, got: seq<int>, done: nat,
                           getting: multiset<Caller>, putting: multiset<Offer>, joining: multiset<Caller>)

  function LedgerOf(s: State): Ledger {
    Ledger(s.put, s.got, s.done, s.getters.All(), s.putters.All(), s.joiners.All())
  }

  /** The next item for a get: the oldest that was not got, or a least one. */
  ghost predicate Due(d: Discipline, l: Ledger, item: int) {
    match d
    case Fifo => |l.got| < |l.put| && item == l.put[|l.got|]
    case Priority =>
      var left := multiset(l.put) - multiset(l.got);
      item in left && forall other :: other in left ==> item <= other
  }

  ghost predicate GetMeant(d: Discipline, l: Ledger, r: Outcome, l': Ledger) {
    r.Took? && |l.put| > |l.got| && Due(d, l, r.item) && l' == l.(got := l.got + [r.item])
  }

  predicate Room(m: int, l: Ledger) { m <= 0 || |l.put| - |l.got| < m }

  /** What each call is meant to answer and to do, said of the history alone: a get waits or fails exactly when all that
      was put was got, a put exactly when maxsize items are left, a join exactly while a put item is not marked done. */
  ghost predicate Meant(d: Discipline, m: int, l: Ledger, step: Step, r: Outcome, l': Ledger) {
    match step
    case Get(c) =>
      if |l.put| == |l.got| then r.Parks? && l' == l.(getting := l.getting + multiset{c}) else GetMeant(d, l, r, l')
    case ResumeGet(c) =>
      c in l.getting &&
      if |l.put| == |l.got| then r.Parks? && l' == l else GetMeant(d, l.(getting := l.getting - multiset{c}), r, l')
    case GetNowait => if |l.put| == |l.got| then r.QueueEmpty? && l' == l else GetMeant(d, l, r, l')
    case Put(o) =>
      if Room(m, l) then r.Finished? && l' == l.(put := l.put + [o.item])
      else r.Parks? && l' == l.(putting := l.putting + multiset{o})
    case ResumePut(o) =>
      o in l.putting &&
      if Room(m, l) then r.Finished? && l' == l.(put := l.put + [o.item], putting := l.putting - multiset{o})
      else r.Parks? && l' == l
    case PutNowait(item) =>
      if Room(m, l) then r.Finished? && l' == l.(put := l.put + [item]) else r.QueueFull? && l' == l
    case TaskDone =>
      if l.done < |l.put| then r.Finished? && l' == l.(done := l.done + 1) else r.TooManyDone? && l' == l
    case Join(c) =>
      if l.done == |l.put| then r.Finished? && l' == l else r.Parks? && l' == l.(joining := l.joining + multiset{c})
    case ResumeJoin(c) =>
      c in l.joining &&
      if l.done == |l.put| then r.Finished? && l' == l.(joining := l.joining - multiset{c}) else r.Parks? && l' == l
  }

  lemma ParkAll<W>(ws: Waiters<W>, w: W, isAsync: bool)
    ensures ws.Park(w, isAsync).All() == ws.All() + multiset{w}
  {
  }

  lemma HeadBag<W>(l: seq<W>)
    requires l != []
    ensures multiset(l) == multiset{l[0]} + multiset(l[1..])
  {
    assert l == [l[0]] + l[1..];
  }

  lemma WakeOneAll<W>(ws: Waiters<W>)
    ensures ws.WakeOne().All() == ws.All()
  {
    if ws.parkedAsync != [] {
      HeadBag(ws.parkedAsync);
    } else if ws.parkedSync != [] {
      HeadBag(ws.parkedSync);
    }
  }

  lemma WakeJoinersAll<W>(ws: Waiters<W>)
    ensures ws.WakeJoiners().All() == ws.All()
  {
    if ws.parkedAsync != [] { HeadBag(ws.parkedAsync); }
    assert multiset(ws.parkedSync[..0]) == multiset{};
  }

  lemma RunAll<W>(ws: Waiters<W>, w: W, isAsync: bool)
    requires w in ws.woken
    ensures w in ws.All() && ws.Run(w).All() == ws.All() - multiset{w} && ws.Run(w).Park(w, isAsync).All() == ws.All()
  {
    ParkAll(ws.Run(w), w, isAsync);
  }

  lemma ItemsLeft(s: State)
    requires Conserved(s)
    ensures |s.items| == |s.put| - |s.got| && multiset(s.items) == multiset(s.put) - multiset(s.got)
    ensures Room(s.maxsize, LedgerOf(s)) <==> !Full(s)
  {
    assert |multiset(s.put)| == |s.put| && |multiset(s.got)| == |s.got| && |multiset(s.items)| == |s.items|;
  }

  lemma PickIsDue(s: State)
    requires Conserved(s) && s.items != []
    ensures Due(s.discipline, LedgerOf(s), s.items[Pick(s.discipline, s.items)])
  {
    ItemsLeft(s);
    var k := Pick(s.discipline, s.items);
    if s.discipline.Priority? {
      assert s.items[k] in multiset(s.items);
      forall other | other in multiset(s.items) ensures s.items[k] <= other { assert other in s.items; }
    }
  }

  /** The item of a get that is not refused; it hands out what is due. */
  lemma ExtractAsMeant(s: State)
    requires Conserved(s) && s.items != []
    ensures GetMeant(s.discipline, LedgerOf(s), Took(s.items[Pick(s.discipline, s.items)]), LedgerOf(Extract(s)))
  {
    PickIsDue(s);
    ItemsLeft(s);
    WakeOneAll(s.putters);
    hide Waiters.All, Waiters.WakeOne, Due;
  }

  lemma InsertAsMeant(s: State, item: int)
    ensures LedgerOf(Insert(s, item)) == LedgerOf(s).(put := s.put + [item])
  {
    WakeOneAll(s.getters);
    hide Waiters.All, Waiters.WakeOne;
  }

  /** The answer that goes with a step. */
  function Answer(s: State, step: Step): Outcome
    requires Enabled(s, step)
  {
    match step
    case Get(_) => if s.items == [] then Parks else Took(s.items[Pick(s.discipline, s.items)])
    case ResumeGet(_) => if s.items == [] then Parks else Took(s.items[Pick(s.discipline, s.items)])
    case GetNowait => if s.items == [] then QueueEmpty else Took(s.items[Pick(s.discipline, s.items)])
    case Put(_) => if Full(s) then Parks else Finished
    case ResumePut(_) => if Full(s) then Parks else Finished
    case PutNowait(_) => if Full(s) then QueueFull else Finished
    case TaskDone => if s.unfinished < 1 then TooManyDone else Finished
    case Join(_) => if s.unfinished != 0 then Parks else Finished
    case ResumeJoin(_) => if s.unfinished != 0 then Parks else Finished
  }

  ghost predicate DoneAsMeant(s: State, step: Step)
    requires Enabled(s, step)
  {
    Meant(s.discipline, s.maxsize, LedgerOf(s), step, Answer(s, step), LedgerOf(Next(s, step)))
  }

  /** In every state that runs reach, each critical section answers and does what it is meant to. */
  lemma StepAsMeant(s: State, step: Step)
    requires Inv(s) && Enabled(s, step)
    ensures DoneAsMeant(s, step)
  {
    hide Inv, Enabled, DoneAsMeant;
    match step
    case Get(_) => GetStepAsMeant(s, step);
    case ResumeGet(_) => GetStepAsMeant(s, step);
    case GetNowait => GetStepAsMeant(s, step);
    case Put(_) => PutStepAsMeant(s, step);
    case ResumePut(_) => PutStepAsMeant(s, step);
    case PutNowait(_) => PutStepAsMeant(s, step);
    case _ => JoinStepAsMeant(s, step);
  }

  lemma KeepsAndMeans(s: State, step: Step)
    requires Enabled(s, step)
    ensures Inv(s) ==> Inv(Next(s, step)) && DoneAsMeant(s, step)
  {
    if Inv(s) {
      StepInv(s, step);
      StepAsMeant(s, step);
    }
    hide *;
  }

  lemma GetStepAsMeant(s: State, step: Step)
    requires Inv(s) && Enabled(s, step) && (step.Get? || step.ResumeGet? || step.GetNowait?)
    ensures DoneAsMeant(s, step)
  {
    assert Conserved(s);
    hide Inv, Conserved, DoneAsMeant;
    match step
    case Get(c) => FirstGetAsMeant(s, c);
    case ResumeGet(c) => ResumedGetAsMeant(s, c);
    case GetNowait => GetNowAsMeant(s);
  }

  lemma FirstGetAsMeant(s: State, c: Caller)
    requires Conserved(s)
    ensures DoneAsMeant(s, Get(c))
  {
    ItemsLeft(s);
    ParkAll(s.getters, c, c.isAsync);
    if s.items != [] { ExtractAsMeant(s); }
    hide Conserved, Extract, GetMeant, Pick, Waiters.All, Waiters.Park;
  }

  lemma ResumedGetAsMeant(s: State, c: Caller)
    requires Conserved(s) && c in s.getters.woken
    ensures DoneAsMeant(s, ResumeGet(c))
  {
    ItemsLeft(s);
    ResumedGet(s, c);
    hide Conserved, GetTurn, LedgerOf, GetMeant, Pick, Waiters.Run, Waiters.All;
    LedgerFields(s);
  }

  lemma ResumedGet(s: State, c: Caller)
    requires Conserved(s) && c in s.getters.woken
    ensures var s1, l := s.(getters := s.getters.Run(c)), LedgerOf(s).(getting := s.getters.All() - multiset{c});
      && c in s.getters.All()
      && if s.items == [] then LedgerOf(GetTurn(s1, c)) == LedgerOf(s)
         else GetMeant(s.discipline, l, Took(s.items[Pick(s.discipline, s.items)]), LedgerOf(GetTurn(s1, c)))
  {
    var s1 := s.(getters := s.getters.Run(c));
    RunAll(s.getters, c, c.isAsync);
    if s.items != [] { ExtractAsMeant(s1); }
    hide Conserved, Extract, GetMeant, Pick, Waiters.All, Waiters.Park, Waiters.Run;
  }

  lemma GetNowAsMeant(s: State)
    requires Conserved(s)
    ensures DoneAsMeant(s, GetNowait)
  {
    ItemsLeft(s);
    if s.items != [] { ExtractAsMeant(s); }
    hide Conserved, Extract, GetMeant, Pick, Waiters.All;
  }

  lemma PutStepAsMeant(s: State, step: Step)
    requires Inv(s) && Enabled(s, step) && (step.Put? || step.ResumePut? || step.PutNowait?)
    ensures DoneAsMeant(s, step)
  {
    assert Conserved(s) && Accounted(s);
    hide Inv, Conserved, Accounted, DoneAsMeant;
    match step
    case Put(o) => FirstPutAsMeant(s, o);
    case ResumePut(o) => ResumedPutAsMeant(s, o);
    case PutNowait(item) => PutNowAsMeant(s, item);
  }

  lemma FirstPutAsMeant(s: State, o: Offer)
    requires Conserved(s)
    ensures DoneAsMeant(s, Put(o))
  {
    ItemsLeft(s);
    hide Conserved, Full, Room, Insert, Waiters.All, Waiters.Park;
    ParkAll(s.putters, o, o.who.isAsync);
    InsertAsMeant(s, o.item);
  }

  lemma ResumedPutAsMeant(s: State, o: Offer)
    requires Conserved(s) && o in s.putters.woken
    ensures DoneAsMeant(s, ResumePut(o))
  {
    ItemsLeft(s);
    ResumedPut(s, o);
    hide Conserved, Full, Room, PutTurn, LedgerOf, Waiters.Run;
    assert LedgerOf(s).put == s.put && LedgerOf(s).putting == s.putters.All() by { LedgerFields(s); }
  }

  lemma LedgerFields(s: State)
    ensures LedgerOf(s).put == s.put && LedgerOf(s).got == s.got
    ensures LedgerOf(s).putting == s.putters.All() && LedgerOf(s).getting == s.getters.All()
  {
  }

  lemma ResumedPut(s: State, o: Offer)
    requires o in s.putters.woken
    ensures var s1 := s.(putters := s.putters.Run(o));
      && o in s.putters.All()
      && LedgerOf(PutTurn(s1, o)) ==
           if Full(s) then LedgerOf(s)
           else LedgerOf(s).(put := s.put + [o.item], putting := s.putters.All() - multiset{o})
  {
    var s1 := s.(putters := s.putters.Run(o));
    RunAll(s.putters, o, o.who.isAsync);
    InsertAsMeant(s1, o.item);
    hide Insert, Waiters.All, Waiters.Park, Waiters.Run;
  }

  lemma PutNowAsMeant(s: State, item: int)
    requires Conserved(s)
    ensures DoneAsMeant(s, PutNowait(item))
  {
    ItemsLeft(s);
    hide Conserved, Full, Room, Insert, Waiters.All;
    InsertAsMeant(s, item);
  }

  lemma JoinStepAsMeant(s: State, step: Step)
    requires Inv(s) && Enabled(s, step) && (step.TaskDone? || step.Join? || step.ResumeJoin?)
    ensures DoneAsMeant(s, step)
  {
    assert Conserved(s) && Accounted(s);
    hide Inv, Conserved, Accounted, DoneAsMeant;
    match step
    case TaskDone => TaskDoneAsMeant(s);
    case Join(c) => FirstJoinAsMeant(s, c);
    case ResumeJoin(c) => ResumedJoinAsMeant(s, c);
  }

  lemma TaskDoneAsMeant(s: State)
    requires Accounted(s)
    ensures DoneAsMeant(s, TaskDone)
  {
    hide Waiters.All, Waiters.WakeJoiners;
    WakeJoinersAll(s.joiners);
  }

  lemma FirstJoinAsMeant(s: State, c: Caller)
    requires Accounted(s)
    ensures DoneAsMeant(s, Join(c))
  {
    hide Waiters.All, Waiters.Park;
    ParkAll(s.joiners, c, c.isAsync);
  }

  lemma ResumedJoinAsMeant(s: State, c: Caller)
    requires Accounted(s) && c in s.joiners.woken
    ensures DoneAsMeant(s, ResumeJoin(c))
  {
    hide Waiters.All, Waiters.Park, Waiters.Run;
    RunAll(s.joiners, c, c.isAsync);
  }

  // ---------------------------------------------------------------- the object

  class AioQueue {
    const discipline: Discipline
    const maxsize: int
    var items: seq<int>
    var unfinished: int
    var getters: Waiters<Caller>
    var putters: Waiters<Offer>
    var joiners: Waiters<Caller>
    ghost var put: seq<int>
    ghost var got: seq<int>
    ghost var done: nat

    ghost function View(): State
      reads this
    {
      State(discipline, maxsize, items, unfinished, getters, putters, joiners, put, got, done)
    }

    lemma ViewIs()
      ensures View().put == put && View().got == got && View().items == items
      ensures View().discipline == discipline && View().maxsize == maxsize
    {
    }

    constructor (d: Discipline, m: int)
      ensures View() == Init(d, m)
    {
      discipline, maxsize := d, m;
      items, unfinished, put, got, done := [], 0, [], [], 0;
      getters := Waiters([], [], multiset{});
      putters := Waiters([], [], multiset{});
      joiners := Waiters([], [], multiset{});
    }

    /** One turn of a blocking get, first or resumed. */
    method TakeOrPark(c: Caller) returns (r: Outcome)
      modifies this
      ensures View() == GetTurn(old(View()), c)
      ensures old(items) == [] ==> r == Parks && got == old(got)
      ensures old(items) != [] ==> r == Took(old(items)[Pick(discipline, old(items))]) && got == old(got) + [r.item]
    {
      if |items| == 0 {
        getters := getters.Park(c, c.isAsync);
        return Parks;
      }
      var item := Pop();
      return Took(item);
    }

    method TakeNow() returns (r: Outcome)
      modifies this
      ensures View() == Next(old(View()), GetNowait)
      ensures old(items) == [] ==> r == QueueEmpty && got == old(got)
      ensures old(items) != [] ==> r == Took(old(items)[Pick(discipline, old(items))]) && got == old(got) + [r.item]
    {
      if |items| == 0 {
        return QueueEmpty;
      }
      var item := Pop();
      return Took(item);
    }

    method Pop() returns (item: int)
      requires items != []
      modifies this
      ensures View() == Extract(old(View())) && got == old(got) + [item] && item == old(items)[Pick(discipline, old(items))]
    {
      var k := Pick(discipline, items);
      item := items[k];
      items := items[..k] + items[k + 1..];
      got := got + [item];
      if maxsize > 0 {
        putters := putters.WakeOne();
      }
    }

    /** One turn of a blocking put, first or resumed. */
    method AddOrPark(o: Offer) returns (r: Outcome)
      modifies this
      ensures View() == PutTurn(old(View()), o)
      ensures r == (if Full(old(View())) then Parks else Finished) && got == old(got)
      ensures put == old(put) + if r.Finished? then [o.item] else []
    {
      if maxsize <= 0 || |items| < maxsize {
        Push(o.item);
        return Finished;
      }
      putters := putters.Park(o, o.who.isAsync);
      return Parks;
    }

    method AddNow(item: int) returns (r: Outcome)
      modifies this
      ensures View() == Next(old(View()), PutNowait(item))
      ensures r == (if Full(old(View())) then QueueFull else Finished) && got == old(got)
      ensures put == old(put) + if r.Finished? then [item] else []
    {
      if maxsize > 0 && |items| >= maxsize {
        return QueueFull;
      }
      Push(item);
      return Finished;
    }

    method Push(item: int)
      modifies this
      ensures View() == Insert(old(View()), item)
    {
      items := items + [item];
      put := put + [item];
      unfinished := unfinished + 1;
      getters := getters.WakeOne();
    }

    method MarkDone() returns (r: Outcome)
      modifies this
      ensures View() == Next(old(View()), TaskDone)
      ensures r == (if old(unfinished) < 1 then TooManyDone else Finished) && got == old(got)
    {
      var left := unfinished - 1;
      if left < 0 {
        return TooManyDone;
      }
      unfinished := left;
      done := done + 1;
      if left == 0 {
        joiners := joiners.WakeJoiners();
      }
      return Finished;
    }

    method JoinOrPark(c: Caller) returns (r: Outcome)
      modifies this
      ensures View() == JoinTurn(old(View()), c)
      ensures r == (if old(unfinished) != 0 then Parks else Finished) && got == old(got)
    {
      if unfinished != 0 {
        joiners := joiners.Park(c, c.isAsync);
        return Parks;
      }
      return Finished;
    }

    method Perform(step: Step) returns (r: Outcome)
      requires Enabled(View(), step)
      modifies this
      ensures View() == Next(old(View()), step) && r == Answer(old(View()), step)
    {
      hide GetTurn, PutTurn, JoinTurn, Insert, Extract, Inv, Meant, LedgerOf, Pick, Waiters.Run, Waiters.All, Enabled;
      match step
      case Get(c) => r := TakeOrPark(c);
      case ResumeGet(c) => getters := getters.Run(c); r := TakeOrPark(c);
      case GetNowait => r := TakeNow();
      case Put(o) => r := AddOrPark(o);
      case ResumePut(o) => putters := putters.Run(o); r := AddOrPark(o);
      case PutNowait(item) => r := AddNow(item);
      case TaskDone => r := MarkDone();
      case Join(c) => r := JoinOrPark(c);
      case ResumeJoin(c) => joiners := joiners.Run(c); r := JoinOrPark(c);
    }

    /** One critical section: it answers and does what it is meant to. */
    method Call(step: Step) returns (r: Outcome)
      requires Enabled(View(), step) && Inv(View())
      modifies this
      ensures View() == Next(old(View()), step) && r == Answer(old(View()), step) && Inv(View())
      ensures Meant(discipline, maxsize, LedgerOf(old(View())), step, r, LedgerOf(View()))
    {
      hide *;
      ViewIs();
      KeepsAndMeans(View(), step);
      MeantIs(View(), step);
      r := Perform(step);
    }
  }

  /** The item that a call handed out, and the item that it stored, if any. */
  function Handed(r: Outcome): seq<int> { if r.Took? then [r.item] else [] }

  function Stored(step: Step, r: Outcome): seq<int> {
    if !r.Finished? then []
    else match step case Put(o) => [o.item] case ResumePut(o) => [o.item] case PutNowait(item) => [item] case _ => []
  }

  lemma MeantMoves(d: Discipline, m: int, l: Ledger, step: Step, r: Outcome, l': Ledger)
    requires Meant(d, m, l, step, r, l')
    ensures l'.put == l.put + Stored(step, r) && l'.got == l.got + Handed(r)
  {
  }

  ghost predicate AnsweredAsMeant(start: State, schedule: seq<Step>, i: nat, r: Outcome) {
    && i < |schedule| && RunPrefix(Next, start, schedule, i) && RunPrefix(Next, start, schedule, i + 1)
    && Meant(start.discipline, start.maxsize, LedgerOf(After(Next, start, schedule[..i])), schedule[i], r,
             LedgerOf(After(Next, start, schedule[..i + 1])))
  }

  ghost predicate AllAnswered(start: State, schedule: seq<Step>, answers: seq<Outcome>) {
    |answers| <= |schedule| && forall i :: 0 <= i < |answers| ==> AnsweredAsMeant(start, schedule, i, answers[i])
  }

  lemma AnswersSnoc(start: State, schedule: seq<Step>, answers: seq<Outcome>, r: Outcome)
    requires AllAnswered(start, schedule, answers) && AnsweredAsMeant(start, schedule, |answers|, r)
    ensures AllAnswered(start, schedule, answers + [r])
  {
    hide AnsweredAsMeant;
    assert |answers| < |schedule| by { WithinSchedule(start, schedule, |answers|, r); }
  }

  lemma WithinSchedule(start: State, schedule: seq<Step>, i: nat, r: Outcome)
    requires AnsweredAsMeant(start, schedule, i, r)
    ensures i < |schedule|
  {
  }

  /** The object under any schedule: every call is answered as meant; what finished puts stored is what gets handed out
      and what is still queued, in the order of the puts for a FIFO queue. */
  method Drive(q: AioQueue, schedule: seq<Step>) returns (answers: seq<Outcome>, stored: seq<int>, handedOut: seq<int>)
    requires IsRun(Next, q.View(), schedule) && Inv(q.View()) && q.put == q.got == []
    modifies q
    ensures q.View() == After(Next, old(q.View()), schedule) && Inv(q.View())
    ensures |answers| == |schedule| && AllAnswered(old(q.View()), schedule, answers)
    ensures stored == StoredBy(schedule, answers) && handedOut == HandedBy(answers)
    ensures multiset(stored) == multiset(handedOut) + multiset(q.items)
    ensures q.discipline.Fifo? ==> stored == handedOut + q.items
  {
    ghost var start := q.View();
    answers, stored, handedOut := [], [], [];
    FirstStep(start, schedule);
    hide *;
    for i := 0 to |schedule|
      invariant Inv(q.View()) && AtStep(q.View(), start, schedule, i)
      invariant LedgerOf(q.View()).put == stored && LedgerOf(q.View()).got == handedOut
      invariant |answers| == i && AllAnswered(start, schedule, answers)
      invariant stored == StoredBy(schedule[..i], answers) && handedOut == HandedBy(answers)
    {
      ghost var before := q.View();
      NextStep(before, start, schedule, i);
      q.ViewIs();
      var r := q.Call(schedule[i]);
      q.ViewIs();
      Moved(before, q.View(), start, schedule, answers, r);
      answers := answers + [r];
      stored := stored + Stored(schedule[i], r);
      handedOut := handedOut + Handed(r);
    }
    LastStep(q.View(), start, schedule);
    q.ViewIs();
  }

  /** The items of the puts that finished, and of the gets that took one, in the order of the calls. */
  function StoredBy(schedule: seq<Step>, answers: seq<Outcome>): seq<int>
    requires |schedule| == |answers|
  {
    if |answers| == 0 then []
    else
      var n := |answers| - 1;
      StoredBy(schedule[..n], answers[..n]) + Stored(schedule[n], answers[n])
  }

  function HandedBy(answers: seq<Outcome>): seq<int> {
    if |answers| == 0 then [] else HandedBy(answers[..|answers| - 1]) + Handed(answers[|answers| - 1])
  }

  lemma Moved(s: State, s': State, start: State, schedule: seq<Step>, answers: seq<Outcome>, r: Outcome)
    requires AtStep(s, start, schedule, |answers|) && AtStep(s', start, schedule, |answers| + 1) && |answers| < |schedule|
    requires Meant(s.discipline, s.maxsize, LedgerOf(s), schedule[|answers|], r, LedgerOf(s'))
    requires AllAnswered(start, schedule, answers)
    ensures AllAnswered(start, schedule, answers + [r])
    ensures LedgerOf(s').put == LedgerOf(s).put + Stored(schedule[|answers|], r) && LedgerOf(s').got == LedgerOf(s).got + Handed(r)
    ensures |answers| == |schedule[..|answers|]|
    ensures StoredBy(schedule[..|answers| + 1], answers + [r]) == StoredBy(schedule[..|answers|], answers) + Stored(schedule[|answers|], r)
    ensures HandedBy(answers + [r]) == HandedBy(answers) + Handed(r)
  {
    hide *;
    MeantMoves(s.discipline, s.maxsize, LedgerOf(s), schedule[|answers|], r, LedgerOf(s'));
    AnswerMeant(s, s', start, schedule, |answers|, r);
    AnswersSnoc(start, schedule, answers, r);
    OneMoreAnswer(schedule, answers, r);
  }

  lemma MeantIs(s: State, step: Step)
    requires Enabled(s, step) && DoneAsMeant(s, step)
    ensures Meant(s.discipline, s.maxsize, LedgerOf(s), step, Answer(s, step), LedgerOf(Next(s, step)))
  {
  }

  lemma OneMoreAnswer(schedule: seq<Step>, answers: seq<Outcome>, r: Outcome)
    requires |answers| < |schedule|
    ensures StoredBy(schedule[..|answers| + 1], answers + [r]) == StoredBy(schedule[..|answers|], answers) + Stored(schedule[|answers|], r)
    ensures HandedBy(answers + [r]) == HandedBy(answers) + Handed(r)
  {
    hide *;
    PrefixSnoc(schedule, |answers|);
    StoredSnoc(schedule[..|answers|], answers, schedule[|answers|], r);
    HandedSnoc(answers, r);
  }

  lemma PrefixSnoc<T>(l: seq<T>, n: nat)
    requires n < |l|
    ensures l[..n + 1] == l[..n] + [l[n]]
  {
  }

  lemma HandedSnoc(answers: seq<Outcome>, r: Outcome)
    ensures HandedBy(answers + [r]) == HandedBy(answers) + Handed(r)
  {
    assert (answers + [r])[..|answers|] == answers;
    hide Handed;
  }

  lemma StoredSnoc(schedule: seq<Step>, answers: seq<Outcome>, step: Step, r: Outcome)
    requires |schedule| == |answers|
    ensures StoredBy(schedule + [step], answers + [r]) == StoredBy(schedule, answers) + Stored(step, r)
  {
    assert (schedule + [step])[..|answers|] == schedule && (answers + [r])[..|answers|] == answers;
    hide Stored;
  }

  /** Where the schedule has led after i steps. */
  ghost predicate AtStep(s: State, start: State, schedule: seq<Step>, i: nat) {
    && RunPrefix(Next, start, schedule, i) && s == After(Next, start, schedule[..i])
    && s.discipline == start.discipline && s.maxsize == start.maxsize
  }

  lemma FirstStep(start: State, schedule: seq<Step>)
    requires IsRun(Next, start, schedule)
    ensures AtStep(start, start, schedule, 0) && LedgerOf(start).put == start.put && LedgerOf(start).got == start.got
    ensures AllAnswered(start, schedule, []) && StoredBy(schedule[..0], []) == [] && HandedBy([]) == []
  {
    RunAt(Next, start, schedule, 0);
  }

  lemma NextStep(s: State, start: State, schedule: seq<Step>, i: nat)
    requires Inv(s) && IsRun(Next, start, schedule) && i < |schedule| && AtStep(s, start, schedule, i)
    ensures Enabled(s, schedule[i]) && Inv(Next(s, schedule[i])) && AtStep(Next(s, schedule[i]), start, schedule, i + 1)
  {
    RunAt(Next, start, schedule, i);
    StepInv(s, schedule[i]);
  }

  lemma AnswerMeant(s: State, s': State, start: State, schedule: seq<Step>, i: nat, r: Outcome)
    requires AtStep(s, start, schedule, i) && AtStep(s', start, schedule, i + 1) && i < |schedule|
    requires Meant(s.discipline, s.maxsize, LedgerOf(s), schedule[i], r, LedgerOf(s'))
    ensures AnsweredAsMeant(start, schedule, i, r)
  {
    hide Meant, LedgerOf, RunPrefix, After, IsRun;
  }

  lemma LastStep(s: State, start: State, schedule: seq<Step>)
    requires Inv(s) && AtStep(s, start, schedule, |schedule|)
    ensures IsRun(Next, start, schedule) && s == After(Next, start, schedule) && schedule[..|schedule|] == schedule
    ensures LedgerOf(s).put == s.put && LedgerOf(s).got == s.got
    ensures multiset(s.put) == multiset(s.got) + multiset(s.items) && (s.discipline.Fifo? ==> s.put == s.got + s.items)
  {
    assert schedule[..|schedule|] == schedule;
  }
}
