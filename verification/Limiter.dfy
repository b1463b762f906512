/** The token bucket behind the QPS limiter, and its acquire loop (shutils/dag/lib/limiter.py).
    Times and tokens are real numbers. */
module Limiters {
  import opened Clocks
  import opened Options

  /** `limit` calls per `period`. */
  datatype Config = Config(limit: nat, period: real)

  function Capacity(c: Config): real { c.limit as real }

  function Rate(c: Config): real
    requires c.period > 0.0
  {
    c.limit as real / c.period
  }

  /** Tokens earned in d seconds; negative when the clock reading went back. */
  function Earned(c: Config, d: real): real
    requires c.period > 0.0
  {
    d * Rate(c)
  }

  datatype Bucket = Bucket(tokens: real, last: real)

  function Min(a: real, b: real): real { if b < a then b else a }

  /** Tokens right after the refill at `now`, which may lie before the last update. */
  function Filled(c: Config, b: Bucket, now: real): real
    requires c.period > 0.0
  {
    Min(Capacity(c), b.tokens + Earned(c, now - b.last))
  }

  predicate Grants(c: Config, b: Bucket, now: real)
    requires c.period > 0.0
  {
    Filled(c, b, now) >= 1.0
  }

  function Tried(c: Config, b: Bucket, now: real): Bucket
    requires c.period > 0.0
  {
    Bucket(if Grants(c, b, now) then Filled(c, b, now) - 1.0 else Filled(c, b, now), now)
  }

  // ---------------------------------------------------------------- traces

  function After(c: Config, b: Bucket, times: seq<real>): Bucket
    requires c.period > 0.0
  {
    if times == [] then b else Tried(c, After(c, b, times[..|times| - 1]), times[|times| - 1])
  }

  /** Whether call k of the trace is granted. */
  predicate Granted(c: Config, b: Bucket, times: seq<real>, k: nat)
    requires c.period > 0.0 && k < |times|
  {
    Grants(c, After(c, b, times[..k]), times[k])
  }

  /** How many of the calls i..j are granted. */
  function GrantCount(c: Config, b: Bucket, times: seq<real>, i: nat, j: nat): nat
    requires c.period > 0.0 && i <= j <= |times|
    decreases j
  {
    if i == j then 0 else GrantCount(c, b, times, i, j - 1) + (if Granted(c, b, times, j - 1) then 1 else 0)
  }

  lemma EarnedAdds(c: Config, x: real, y: real)
    requires c.period > 0.0
    ensures Earned(c, x) + Earned(c, y) == Earned(c, x + y)
  {
  }

  lemma EarnedForwards(c: Config, d: real)
    requires c.period > 0.0 && d >= 0.0
    ensures Earned(c, d) >= 0.0
  {
    assert Rate(c) >= 0.0;
  }

  lemma AfterSnoc(c: Config, b: Bucket, times: seq<real>, k: nat)
    requires c.period > 0.0 && k < |times|
    ensures After(c, b, times[..k + 1]) == Tried(c, After(c, b, times[..k]), times[k])
  {
    assert times[..k + 1][..k] == times[..k];
  }

  /** From call i on, tokens grow no faster than the rate and every grant costs one. */
  lemma {:induction false} Drift(c: Config, b: Bucket, times: seq<real>, i: nat, j: nat)
    requires c.period > 0.0 && i < j <= |times|
    ensures var e := After(c, b, times[..j]);
      && e.last == times[j - 1]
      && e.tokens <= Capacity(c) + Earned(c, times[j - 1] - times[i]) - GrantCount(c, b, times, i, j) as real
    decreases j
  {
    AfterSnoc(c, b, times, j - 1);
    EarnedAdds(c, 0.0, 0.0);
    hide Earned;
    if i < j - 1 {
      Drift(c, b, times, i, j - 1);
      EarnedAdds(c, times[j - 2] - times[i], times[j - 1] - times[j - 2]);
      assert (times[j - 2] - times[i]) + (times[j - 1] - times[j - 2]) == times[j - 1] - times[i];
    } else {
      assert GrantCount(c, b, times, i, i) == 0;
    }
  }

  /** For any trace, timestamps in any order: the grants from call i to a granted call j number at most
      the capacity plus the rate times the time between the two calls. */
  lemma GrantBound(c: Config, b: Bucket, times: seq<real>, i: nat, j: nat)
    requires c.period > 0.0 && i <= j < |times| && Granted(c, b, times, j)
    ensures GrantCount(c, b, times, i, j + 1) as real <= Capacity(c) + Earned(c, times[j] - times[i])
  {
    hide Earned;
    Drift(c, b, times, i, j + 1);
    AfterSnoc(c, b, times, j);
  }

  /** Hence at most twice the limit within one period. */
  lemma WithinOnePeriod(c: Config, b: Bucket, times: seq<real>, i: nat, j: nat)
    requires c.period > 0.0 && i <= j < |times| && Granted(c, b, times, j) && times[j] - times[i] <= c.period
    ensures GrantCount(c, b, times, i, j + 1) <= 2 * c.limit
  {
    hide Earned;
    GrantBound(c, b, times, i, j);
    EarnedInPeriod(c, times[j] - times[i]);
  }

  lemma EarnedInPeriod(c: Config, d: real)
    requires c.period > 0.0 && d <= c.period
    ensures Earned(c, d) <= c.limit as real
  {
    var r := Rate(c);
    assert c.period * r == c.limit as real;
    assert (c.period - d) * r >= 0.0;
  }

  /** The bound cannot be had for a refused last call when the clock readings are out of order: one call
      with a late reading, then one with an early reading, leaves a negative balance. */
  lemma RefusedCallCanBreakTheBound()
    ensures var c, b, times := Config(1, 1.0), Bucket(1.0, 0.0), [0.0, -10.0];
      && !Granted(c, b, times, 1)
      && GrantCount(c, b, times, 0, 2) as real > Capacity(c) + Earned(c, times[1] - times[0])
  {
    var c, b, times := Config(1, 1.0), Bucket(1.0, 0.0), [0.0, -10.0];
    assert times[..0] == [] && times[..1] == [0.0] && [0.0][..0] == [];
    assert Rate(c) == 1.0;
    assert Grants(c, b, 0.0);
    assert After(c, b, [0.0]) == Bucket(0.0, 0.0);
    assert GrantCount(c, b, times, 0, 1) == GrantCount(c, b, times, 0, 0) + 1;
  }

  /** The last granted call from i to j, or none. */
  lemma {:induction false} LastGrant(c: Config, b: Bucket, times: seq<real>, i: nat, j: nat) returns (l: Option<nat>)
    requires c.period > 0.0 && i <= j <= |times|
    ensures l.None? ==> GrantCount(c, b, times, i, j) == 0
    ensures l.Some? ==> i <= l.value < j && Granted(c, b, times, l.value)
    ensures l.Some? ==> GrantCount(c, b, times, i, j) == GrantCount(c, b, times, i, l.value + 1)
    decreases j
  {
    l := None;
    if i < j {
      if Granted(c, b, times, j - 1) {
        l := Some(j - 1);
      } else {
        l := LastGrant(c, b, times, i, j - 1);
      }
    }
  }

  lemma EarnedGrows(c: Config, x: real, y: real)
    requires c.period > 0.0 && x <= y
    ensures Earned(c, x) <= Earned(c, y)
  {
    EarnedForwards(c, y - x);
    EarnedAdds(c, x, y - x);
  }

  /** The bound holds at any call j, granted or not, whose reading is not before that of the last granted call l from i
      on; the order of all other readings does not matter. */
  lemma BoundAfterLastGrant(c: Config, b: Bucket, times: seq<real>, i: nat, l: nat, j: nat)
    requires c.period > 0.0 && i <= l <= j < |times| && Granted(c, b, times, l) && times[l] <= times[j]
    requires GrantCount(c, b, times, i, j + 1) == GrantCount(c, b, times, i, l + 1)
    ensures GrantCount(c, b, times, i, j + 1) as real <= Capacity(c) + Earned(c, times[j] - times[i])
  {
    hide Earned, GrantCount, After;
    GrantBound(c, b, times, i, l);
    EarnedGrows(c, times[l] - times[i], times[j] - times[i]);
  }

  ghost predicate InOrder(times: seq<real>) {
    forall j, k :: 0 <= j <= k < |times| ==> times[j] <= times[k]
  }

  /** So with clock readings in order it holds from any call to any other. */
  lemma MonotoneBound(c: Config, b: Bucket, times: seq<real>, i: nat, j: nat)
    requires c.period > 0.0 && i <= j < |times| && InOrder(times)
    ensures GrantCount(c, b, times, i, j + 1) as real <= Capacity(c) + Earned(c, times[j] - times[i])
  {
    var l := LastGrant(c, b, times, i, j + 1);
    hide Earned, GrantCount, After;
    if l.Some? {
      BoundAfterLastGrant(c, b, times, i, l.value, j);
    } else {
      EarnedForwards(c, times[j] - times[i]);
    }
  }

  lemma EarnedStrictly(c: Config, d: real)
    requires c.period > 0.0 && c.limit >= 1 && d > 0.0
    ensures Earned(c, d) > 0.0
  {
    RatePositiveIff(c);
    var r := Rate(c);
    assert d * r > 0.0;
  }

  // ---------------------------------------------------------------- what is granted at least

  lemma FilledNow(c: Config, b: Bucket)
    requires c.period > 0.0 && b.tokens <= Capacity(c)
    ensures Filled(c, b, b.last) == b.tokens
  {
    assert Earned(c, 0.0) == 0.0;
  }

  /** The bucket in the middle of a burst that found t tokens: one is gone for each call as long as they last. */
  lemma {:induction false} InBurst(c: Config, b: Bucket, times: seq<real>, i: nat, m: nat)
    requires c.period > 0.0 && i < m <= |times| && forall x :: i <= x < m ==> times[x] == times[i]
    ensures var t, e := Filled(c, After(c, b, times[..i]), times[i]), After(c, b, times[..m]);
      && t <= Capacity(c) && e.last == times[i] && e.tokens <= Capacity(c)
      && (t >= (m - i) as real ==> e.tokens == t - (m - i) as real)
      && (t < (m - i) as real ==> e.tokens < 1.0)
    decreases m
  {
    AfterSnoc(c, b, times, m - 1);
    if i < m - 1 {
      InBurst(c, b, times, i, m - 1);
      FilledNow(c, After(c, b, times[..m - 1]));
      hide After, Earned;
    }
  }

  /** Of calls that come at once, exactly as many are granted as the bucket holds whole tokens for. */
  lemma BurstIff(c: Config, b: Bucket, times: seq<real>, i: nat, m: nat)
    requires c.period > 0.0 && i <= m < |times| && forall x :: i <= x <= m ==> times[x] == times[i]
    ensures Granted(c, b, times, m) <==> Filled(c, After(c, b, times[..i]), times[i]) >= (m - i + 1) as real
  {
    if i < m {
      InBurst(c, b, times, i, m);
      FilledNow(c, After(c, b, times[..m]));
      hide After, Earned;
    }
  }

  /** With readings in order no balance is negative. */
  lemma {:induction false} NeverNegative(c: Config, b: Bucket, times: seq<real>, k: nat)
    requires c.period > 0.0 && b.tokens >= 0.0 && InOrder(times) && (times != [] ==> b.last <= times[0]) && k <= |times|
    ensures After(c, b, times[..k]).tokens >= 0.0
    ensures After(c, b, times[..k]).last == if k == 0 then b.last else times[k - 1]
    decreases k
  {
    if k > 0 {
      NeverNegative(c, b, times, k - 1);
      AfterSnoc(c, b, times, k - 1);
      EarnedForwards(c, times[k - 1] - After(c, b, times[..k - 1]).last);
      hide After, Earned;
    }
  }

  /** Who has let a period pass finds the bucket full: the next `limit` calls at once are all granted, and not one more. */
  lemma BurstAfterIdle(c: Config, b: Bucket, times: seq<real>, i: nat, m: nat)
    requires c.period > 0.0 && b.tokens >= 0.0 && InOrder(times) && 0 < i <= m < |times| && b.last <= times[0]
    requires times[i] - times[i - 1] >= c.period && forall x :: i <= x <= m ==> times[x] == times[i]
    ensures Granted(c, b, times, m) <==> m - i < c.limit
  {
    hide After, Earned, Granted, Rate;
    NeverNegative(c, b, times, i);
    IdleFills(c, After(c, b, times[..i]), times[i]);
    BurstIff(c, b, times, i, m);
  }

  lemma IdleFills(c: Config, b: Bucket, now: real)
    requires c.period > 0.0 && b.tokens >= 0.0 && now - b.last >= c.period
    ensures Filled(c, b, now) == Capacity(c)
  {
    PeriodEarns(c);
    EarnedGrows(c, c.period, now - b.last);
    hide Earned;
  }

  lemma PeriodEarns(c: Config)
    requires c.period > 0.0
    ensures Earned(c, c.period) == c.limit as real
  {
    var r := Rate(c);
    assert c.period * r == c.limit as real;
  }

  /** So does a new limiter. */
  lemma BurstWhenNew(c: Config, start: real, times: seq<real>, m: nat)
    requires c.period > 0.0 && m < |times| && start <= times[0] && forall x :: 0 <= x <= m ==> times[x] == times[0]
    ensures Granted(c, Bucket(Capacity(c), start), times, m) <==> m < c.limit
  {
    var b := Bucket(Capacity(c), start);
    assert After(c, b, times[..0]) == b;
    EarnedForwards(c, times[0] - start);
    assert Filled(c, b, times[0]) == Capacity(c);
    BurstIff(c, b, times, 0, m);
    hide After, Earned, Granted;
  }

  /** The refill at call k finds room for all that was earned. */
  ghost predicate Unclipped(c: Config, b: Bucket, times: seq<real>, k: nat)
    requires c.period > 0.0 && k < |times|
  {
    var e := After(c, b, times[..k]);
    e.tokens + Earned(c, times[k] - e.last) <= Capacity(c)
  }

  /** While no token is lost at the brim, the grants are exactly what was there, and was earned, less what is left; whatever
      the order of the readings. So callers that are refused have used up the rate. */
  lemma {:induction false} Balance(c: Config, b: Bucket, times: seq<real>, i: nat, j: nat)
    requires c.period > 0.0 && i < j <= |times| && forall k: nat :: i <= k < j ==> Unclipped(c, b, times, k)
    ensures var from, to := After(c, b, times[..i]), After(c, b, times[..j]);
      && to.last == times[j - 1]
      && GrantCount(c, b, times, i, j) as real == from.tokens + Earned(c, times[j - 1] - from.last) - to.tokens
      && (!Granted(c, b, times, j - 1) ==>
            GrantCount(c, b, times, i, j) as real > from.tokens + Earned(c, times[j - 1] - from.last) - 1.0)
    decreases j
  {
    OneBalance(c, b, times, j - 1);
    assert GrantCount(c, b, times, i, i) == 0;
    hide Unclipped, After, Earned, Granted;
    if i < j - 1 {
      Balance(c, b, times, i, j - 1);
      var from := After(c, b, times[..i]);
      EarnedAdds(c, times[j - 2] - from.last, times[j - 1] - times[j - 2]);
      assert (times[j - 2] - from.last) + (times[j - 1] - times[j - 2]) == times[j - 1] - from.last;
    }
  }

  lemma OneBalance(c: Config, b: Bucket, times: seq<real>, k: nat)
    requires c.period > 0.0 && k < |times| && Unclipped(c, b, times, k)
    ensures var from, to := After(c, b, times[..k]), After(c, b, times[..k + 1]);
      && to.last == times[k]
      && to.tokens == from.tokens + Earned(c, times[k] - from.last) - (if Granted(c, b, times, k) then 1.0 else 0.0)
      && (!Granted(c, b, times, k) ==> to.tokens < 1.0)
  {
    AfterSnoc(c, b, times, k);
    hide After, Earned;
  }

  // ---------------------------------------------------------------- waiting

  datatype Wait = Seconds(value: real) | ZeroDivision

  function WaitTime(c: Config, b: Bucket): Wait
    requires c.period > 0.0
  {
    var needed := 1.0 - b.tokens;
    if needed <= 0.0 then Seconds(0.0)
    else if Rate(c) == 0.0 then ZeroDivision
    else Seconds(needed / Rate(c))
  }

  lemma RatePositiveIff(c: Config)
    requires c.period > 0.0
    ensures Rate(c) == 0.0 <==> c.limit == 0
    ensures c.limit > 0 ==> Rate(c) > 0.0
  {
    assert c.period * Rate(c) == c.limit as real;
    assert Rate(c) <= 0.0 ==> c.period * Rate(c) <= 0.0;
  }

  /** Who waits as long as told, with nobody else about, is granted; and any shorter wait is refused. */
  lemma WaitIsExact(c: Config, b: Bucket, delta: real)
    requires c.period > 0.0 && c.limit >= 1 && b.tokens < 1.0 && delta >= 0.0
    ensures WaitTime(c, b).Seconds? && WaitTime(c, b).value > 0.0
    ensures Grants(c, b, b.last + delta) <==> delta >= WaitTime(c, b).value
  {
    RatePositiveIff(c);
    var r, needed := Rate(c), 1.0 - b.tokens;
    var w := needed / r;
    assert w * r == needed;
    assert w <= 0.0 ==> w * r <= 0.0;
    if delta >= w {
      EarnedForwards(c, delta - w);
      EarnedAdds(c, delta - w, w);
    } else {
      EarnedStrictly(c, w - delta);
      EarnedAdds(c, delta, w - delta);
    }
  }

  lemma LaterGrantsToo(c: Config, b: Bucket, now: real, later: real)
    requires c.period > 0.0 && Grants(c, b, now) && now <= later
    ensures Grants(c, b, later)
  {
    EarnedForwards(c, later - now);
    EarnedAdds(c, now - b.last, later - now);
    assert (now - b.last) + (later - now) == later - b.last;
  }

  // ---------------------------------------------------------------- the object

  datatype Result = Acquired | TimedOut | Raised

  class Limiter {
    const config: Config
    var tokens: real
    var last: real

    ghost function View(): Bucket
      reads this
    {
      Bucket(tokens, last)
    }

    ghost predicate Valid()
      reads this
    {
      config.period > 0.0 && tokens <= Capacity(config)
    }

    constructor (c: Config, now: real)
      requires c.period > 0.0
      ensures Valid() && config == c && View() == Bucket(Capacity(c), now)
    {
      config := c;
      tokens, last := c.limit as real, now;
    }

    method TryAcquireAt(now: real) returns (ok: bool)
      requires Valid()
      modifies this
      ensures Valid() && ok == Grants(config, old(View()), now) && View() == Tried(config, old(View()), now)
    {
      var delta := now - last;
      last := now;
      tokens := Min(config.limit as real, tokens + delta * (config.limit as real / config.period));
      if tokens >= 1.0 {
        tokens := tokens - 1.0;
        return true;
      }
      return false;
    }

    /** `acquire` with no competitor: it succeeds after one sleep at most; it gives up only once the
        timeout has passed; and it raises exactly when it would have to wait on a limit of 0. */
    method Acquire(clock: Clock, timeout: Option<real>) returns (r: Result)
      requires Valid() && last <= clock.now
      modifies this, clock
      ensures Valid() && last <= clock.now
      ensures clock.sleeps <= old(clock.sleeps) + 1
      ensures config.limit >= 1 && timeout.None? ==> r.Acquired?
      ensures config.limit >= 1 ==> !r.Raised?
      ensures r.TimedOut? ==> timeout.Some? && clock.now - old(clock.now) >= timeout.value
      ensures Grants(config, old(View()), old(clock.now)) ==> r.Acquired? && clock.sleeps == old(clock.sleeps)
      ensures r.TimedOut? ==> tokens < 1.0
      ensures config.limit == 0 ==> !r.Acquired?
      ensures config.limit == 0 && timeout.None? ==> r.Raised?
    {
      var start := clock.Read();
      var turns := 0;
      RatePositiveIff(config);
      hide Earned, Rate;
      while true
        invariant 0 <= turns <= 1 && clock.sleeps == old(clock.sleeps) + turns
        invariant old(clock.now) <= start <= clock.now && last <= clock.now
        invariant Valid() && (config.limit == 0 ==> turns == 0)
        invariant turns == 1 ==>
          || Grants(config, View(), clock.now)
          || (timeout.Some? && clock.now - start >= timeout.value)
        invariant turns == 0 ==> View() == old(View())
        invariant turns == 1 ==> !Grants(config, old(View()), old(clock.now)) && tokens < 1.0
        invariant turns == 1 && timeout.None? ==> Grants(config, View(), clock.now)
        decreases 1 - turns
      {
        ghost var before := clock.now;
        var now := clock.Read();
        if turns == 1 && Grants(config, Bucket(tokens, last), before) {
          LaterGrantsToo(config, View(), before, now);
        }
        if turns == 0 && Grants(config, old(View()), old(clock.now)) {
          LaterGrantsToo(config, View(), old(clock.now), now);
        }
        var ok := TryAcquireAt(now);
        if ok {
          return Acquired;
        }
        if timeout.Some? {
          var checked := clock.Read();
          if checked - start > timeout.value {
            return TimedOut;
          }
        }
        var wait := WaitTime(config, Bucket(tokens, last));
        if wait.ZeroDivision? {
          return Raised;
        }
        var w := wait.value;
        WaitIsExact(config, View(), 0.0);
        if timeout.Some? {
          var checked := clock.Read();
          w := Min(w, timeout.value - (checked - start));
          if w <= 0.0 {
            return TimedOut;
          }
        }
        clock.Sleep(w);
        WaitIsExact(config, View(), clock.now - last);
        assert View().last + (clock.now - last) == clock.now;
        turns := turns + 1;
      }
    }
  }
}
