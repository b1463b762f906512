/** The fixed-window rate limiter and its decorator (shutils/rate_limiter.py). Times are real numbers. */
module RateLimiters {
  import opened Clocks

  /** At most `calls` calls per `period`. */
  datatype Config = Config(calls: int, period: real)

  predicate Allowed(c: Config) { c.calls > 0 && c.period >= 0.0 }

  /** Calls seen in the current window, granted or not, and the start of that window. */
  datatype Window = Window(tokens: int, start: real)

  predicate Refills(c: Config, w: Window, now: real) {
    c.period - (now - w.start) <= 0.0
  }

  function Next(c: Config, w: Window, now: real): Window {
    if c.period == 0.0 then w
    else if Refills(c, w, now) then Window(1, now)
    else w.(tokens := w.tokens + 1)
  }

  /** The answer of a call: 0 for a grant, otherwise how long to wait. */
  function Answer(c: Config, w: Window, now: real): real {
    if c.period == 0.0 || Next(c, w, now).tokens <= c.calls then 0.0
    else c.period - (now - w.start)
  }

  predicate Grants(c: Config, w: Window, now: real) { Answer(c, w, now) == 0.0 }

  // ---------------------------------------------------------------- traces

  function After(c: Config, w: Window, times: seq<real>): Window {
    if times == [] then w else Next(c, After(c, w, times[..|times| - 1]), times[|times| - 1])
  }

  predicate Granted(c: Config, w: Window, times: seq<real>, k: nat)
    requires k < |times|
  {
    Grants(c, After(c, w, times[..k]), times[k])
  }

  predicate Refilled(c: Config, w: Window, times: seq<real>, k: nat)
    requires k < |times|
  {
    Refills(c, After(c, w, times[..k]), times[k])
  }

  /** How many of the calls i..j are granted. */
  function GrantCount(c: Config, w: Window, times: seq<real>, i: nat, j: nat): nat
    requires i <= j <= |times|
    decreases j
  {
    if i == j then 0 else GrantCount(c, w, times, i, j - 1) + (if Granted(c, w, times, j - 1) then 1 else 0)
  }

  ghost predicate InOrder(w: Window, times: seq<real>) {
    && (forall k :: 0 <= k < |times| ==> w.start <= times[k])
    && (forall j, k :: 0 <= j <= k < |times| ==> times[j] <= times[k])
  }

  lemma AfterSnoc(c: Config, w: Window, times: seq<real>, k: nat)
    requires k < |times|
    ensures After(c, w, times[..k + 1]) == Next(c, After(c, w, times[..k]), times[k])
  {
    assert times[..k + 1][..k] == times[..k];
  }

  function Least(a: int, b: int): int { if b < a then b else a }

  /** After k calls the window start is a past time, and the call count is not negative. */
  lemma {:induction false} WindowInPast(c: Config, w: Window, times: seq<real>, k: nat)
    requires c.period > 0.0 && InOrder(w, times) && k <= |times| && w.tokens >= 0
    ensures After(c, w, times[..k]).tokens >= 0
    ensures forall j :: k <= j < |times| ==> After(c, w, times[..k]).start <= times[j]
    decreases k
  {
    if k > 0 {
      AfterSnoc(c, w, times, k - 1);
      WindowInPast(c, w, times, k - 1);
    }
  }

  function Clamp(x: int, hi: nat): nat { if x < 0 then 0 else if x > hi then hi else x }

  /** The first of the calls i..j whose reading is at least `bound`, or j if there is none. */
  function FirstFrom(times: seq<real>, bound: real, i: nat, j: nat): (k: nat)
    requires i <= j <= |times|
    ensures i <= k <= j && (k < j ==> times[k] >= bound) && forall m :: i <= m < k ==> times[m] < bound
    decreases j - i
  {
    if i == j || times[i] >= bound then i else FirstFrom(times, bound, i + 1, j)
  }

  lemma {:induction false} CountSplits(c: Config, w: Window, times: seq<real>, i: nat, k: nat, j: nat)
    requires i <= k <= j <= |times|
    ensures GrantCount(c, w, times, i, j) == GrantCount(c, w, times, i, k) + GrantCount(c, w, times, k, j)
    decreases j
  {
    if k < j {
      CountSplits(c, w, times, i, k, j - 1);
    }
  }

  /** Before the next refill the window stays and every call counts against it. */
  lemma {:induction false} Quiet(c: Config, w: Window, times: seq<real>, i: nat, j: nat)
    requires c.period > 0.0 && i <= j <= |times|
    requires forall m :: i <= m < j ==> times[m] < After(c, w, times[..i]).start + c.period
    ensures var b := After(c, w, times[..i]);
      && After(c, w, times[..j]) == Window(b.tokens + (j - i), b.start)
      && GrantCount(c, w, times, i, j) == Clamp(c.calls - b.tokens, j - i)
    decreases j
  {
    if i < j {
      Quiet(c, w, times, i, j - 1);
      AfterSnoc(c, w, times, j - 1);
    }
  }

  /** A refilling call opens a window of its own. */
  lemma Refilling(c: Config, w: Window, times: seq<real>, k: nat)
    requires Allowed(c) && c.period > 0.0 && k < |times| && times[k] >= After(c, w, times[..k]).start + c.period
    ensures After(c, w, times[..k + 1]) == Window(1, times[k]) && GrantCount(c, w, times, k, k + 1) == 1
  {
    AfterSnoc(c, w, times, k);
    assert GrantCount(c, w, times, k, k) == 0;
  }

  lemma FreshWindow(c: Config, w: Window, times: seq<real>, k: nat, j: nat)
    requires Allowed(c) && c.period > 0.0 && k < j <= |times| && times[k] >= After(c, w, times[..k]).start + c.period
    requires forall m :: k < m < j ==> times[m] < times[k] + c.period
    ensures GrantCount(c, w, times, k, j) == Clamp(c.calls, j - k)
  {
    Refilling(c, w, times, k);
    CountSplits(c, w, times, k, k + 1, j);
    Quiet(c, w, times, k + 1, j);
  }

  /** Exactly how many calls of a stretch shorter than the period are granted, from the clock readings, the positions
      and the window at its beginning: what is left of that window, up to the first call k that refills, and a
      fresh window from k on. */
  lemma GrantsExactly(c: Config, w: Window, times: seq<real>, i: nat, j: nat)
    requires Allowed(c) && c.period > 0.0 && InOrder(w, times)
    requires i <= j <= |times| && (i < j ==> times[j - 1] - times[i] < c.period)
    ensures var b := After(c, w, times[..i]);
      var k := FirstFrom(times, b.start + c.period, i, j);
      GrantCount(c, w, times, i, j) == Clamp(c.calls - b.tokens, k - i) + Clamp(c.calls, j - k)
  {
    var k := FirstFrom(times, After(c, w, times[..i]).start + c.period, i, j);
    hide *;
    if k < j {
      WithinAPeriod(c, w, times, i, k, j);
    }
    GrantsAround(c, w, times, i, k, j);
  }

  lemma GrantsAround(c: Config, w: Window, times: seq<real>, i: nat, k: nat, j: nat)
    requires Allowed(c) && c.period > 0.0 && i <= k <= j <= |times|
    requires forall m :: i <= m < k ==> times[m] < After(c, w, times[..i]).start + c.period
    requires k < j ==> times[k] >= After(c, w, times[..i]).start + c.period
    requires forall m :: k < m < j ==> times[m] < times[k] + c.period
    ensures GrantCount(c, w, times, i, j) == Clamp(c.calls - After(c, w, times[..i]).tokens, k - i) + Clamp(c.calls, j - k)
  {
    hide *;
    Quiet(c, w, times, i, k);
    CountSplits(c, w, times, i, k, j);
    if k < j {
      FreshWindow(c, w, times, k, j);
    } else {
      NoCalls(c, w, times, j);
    }
  }

  lemma NoCalls(c: Config, w: Window, times: seq<real>, j: nat)
    requires j <= |times|
    ensures GrantCount(c, w, times, j, j) == 0 && Clamp(c.calls, 0) == 0
  {
  }

  lemma WithinAPeriod(c: Config, w: Window, times: seq<real>, i: nat, k: nat, j: nat)
    requires InOrder(w, times) && i <= k < j <= |times| && times[j - 1] - times[i] < c.period
    ensures forall m :: k < m < j ==> times[m] < times[k] + c.period
  {
    assert times[i] <= times[k];
    forall m | k < m < j ensures times[m] < times[k] + c.period {
      assert times[m] <= times[j - 1];
    }
  }

  /** The documented "maximum number of calls per period" is kept by a stretch of calls shorter than the period exactly
      when the grants left over before its refill and those after it fit the limit together. */
  lemma LimitKeptIff(c: Config, w: Window, times: seq<real>, i: nat, j: nat)
    requires Allowed(c) && c.period > 0.0 && InOrder(w, times)
    requires i <= j <= |times| && (i < j ==> times[j - 1] - times[i] < c.period)
    ensures var b := After(c, w, times[..i]);
      var k := FirstFrom(times, b.start + c.period, i, j);
      GrantCount(c, w, times, i, j) <= c.calls <==> Clamp(c.calls - b.tokens, k - i) + Clamp(c.calls, j - k) <= c.calls
  {
    GrantsExactly(c, w, times, i, j);
  }

  lemma {:induction false} DriftInWindow(c: Config, w: Window, times: seq<real>, i: nat, j: nat)
    requires Allowed(c) && c.period > 0.0 && InOrder(w, times) && w.tokens >= 0
    requires i < j <= |times| && forall k :: i < k < j ==> !Refilled(c, w, times, k)
    ensures GrantCount(c, w, times, i, j) <= Least(c.calls, After(c, w, times[..j]).tokens)
    decreases j
  {
    AfterSnoc(c, w, times, j - 1);
    WindowInPast(c, w, times, j - 1);
    if i < j - 1 {
      DriftInWindow(c, w, times, i, j - 1);
      assert !Refilled(c, w, times, j - 1);
    } else {
      assert GrantCount(c, w, times, i, i) == 0;
    }
  }

  /** With the clock in order, any half-open interval [from, from + period) holds at most 2 * calls grants. */
  lemma AtMostTwice(c: Config, w: Window, times: seq<real>, from: real, i: nat, j: nat)
    requires Allowed(c) && c.period > 0.0 && InOrder(w, times) && w.tokens >= 0
    requires i <= j < |times| && from <= times[i] && times[j] < from + c.period
    ensures GrantCount(c, w, times, i, j + 1) <= 2 * c.calls
  {
    hide After, GrantCount, InOrder, FirstFrom;
    WindowInPast(c, w, times, i);
    GrantsExactly(c, w, times, i, j + 1);
  }

  /** One window, that is a stretch of calls of which none but the first refills, holds at most `calls`. */
  lemma OneWindow(c: Config, w: Window, times: seq<real>, i: nat, j: nat)
    requires Allowed(c) && c.period > 0.0 && InOrder(w, times) && w.tokens >= 0
    requires i <= j < |times| && forall k :: i < k <= j ==> !Refilled(c, w, times, k)
    ensures GrantCount(c, w, times, i, j + 1) <= c.calls
  {
    hide After, GrantCount, InOrder;
    DriftInWindow(c, w, times, i, j + 1);
  }

  /** calls readings in the middle of a period, then as many at its end. */
  function TwoBursts(c: Config, start: real): seq<real>
    requires c.calls >= 0
  {
    seq(2 * c.calls, n => if n < c.calls then start + c.period / 2.0 else start + c.period)
  }

  /** Whatever the limit and the period, a new limiter can exceed the limit by as much as `AtMostTwice` allows: both
      bursts are granted in full, within half a period. */
  lemma TwoBurstsFitInOnePeriod(c: Config, start: real)
    requires Allowed(c) && c.period > 0.0
    ensures var times := TwoBursts(c, start);
      && InOrder(Window(0, start), times) && times[|times| - 1] - times[0] < c.period
      && GrantCount(c, Window(0, start), times, 0, |times|) == 2 * c.calls
  {
    var times := TwoBursts(c, start);
    assert times[0] == start + c.period / 2.0 && times[|times| - 1] == start + c.period;
    assert times[..0] == [];
    var k := FirstFrom(times, start + c.period, 0, |times|);
    hide FirstFrom;
    assert times[c.calls] == start + c.period;
    assert k < |times| ==> times[k] >= start + c.period;
    assert k == c.calls;
    GrantsExactly(c, Window(0, start), times, 0, |times|);
  }

  /** Every refusal names a wait in (0, period], and a lone caller that sleeps that long is granted. */
  lemma RefusalIsHonest(c: Config, w: Window, now: real, later: real)
    requires Allowed(c) && w.start <= now && !Grants(c, w, now)
    requires later >= now + Answer(c, w, now)
    ensures 0.0 < Answer(c, w, now) <= c.period
    ensures Grants(c, Next(c, w, now), later)
  {
  }

  /** And a lone caller that comes back earlier is refused again. */
  lemma EarlierIsRefused(c: Config, w: Window, now: real, later: real)
    requires Allowed(c) && w.start <= now <= later && !Grants(c, w, now)
    requires later < now + Answer(c, w, now)
    ensures !Grants(c, Next(c, w, now), later)
  {
  }

  // ---------------------------------------------------------------- the object

  class RateLimiter {
    const config: Config
    var tokens: int
    var lastRefill: real

    ghost function View(): Window
      reads this
    {
      Window(tokens, lastRefill)
    }

    constructor (c: Config, now: real)
      requires Allowed(c)
      ensures config == c && View() == Window(0, now)
    {
      config := c;
      tokens, lastRefill := 0, now;
    }

    /** One call at time `now`. */
    method Cal(now: real) returns (wait: real)
      modifies this
      ensures wait == Answer(config, old(View()), now) && View() == Next(config, old(View()), now)
    {
      if config.period == 0.0 {
        return 0.0;
      }
      var sinceRefill := now - lastRefill;
      var remaining := config.period - sinceRefill;
      if remaining <= 0.0 {
        tokens := 0;
        lastRefill := now;
      }
      tokens := tokens + 1;
      if tokens > config.calls {
        return remaining;
      }
      return 0.0;
    }
  }

  datatype Outcome = Called | Refused(wait: real) | Skipped

  /** The wrapper that the decorator puts around a function, for a lone caller: with sleep_and_retry the
      function is always called, after one sleep at most. */
  method Wrapped(limiter: RateLimiter, clock: Clock, sleepAndRetry: bool, raise: bool) returns (r: Outcome)
    requires Allowed(limiter.config) && limiter.lastRefill <= clock.now
    modifies limiter, clock
    ensures sleepAndRetry ==> r.Called? && clock.sleeps <= old(clock.sleeps) + 1
    ensures !sleepAndRetry ==> clock.sleeps == old(clock.sleeps)
    ensures !sleepAndRetry ==> (r.Called? <==> Grants(limiter.config, old(limiter.View()), clock.now))
    ensures r.Refused? ==> raise && 0.0 < r.wait <= limiter.config.period
    ensures r.Skipped? ==> !raise
    ensures limiter.lastRefill <= clock.now
  {
    ghost var slept := 0;
    while true
      invariant 0 <= slept <= 1 && clock.sleeps == old(clock.sleeps) + slept
      invariant slept == 0 ==> limiter.View() == old(limiter.View())
      invariant slept == 1 ==> sleepAndRetry && forall t :: t >= clock.now ==> Grants(limiter.config, limiter.View(), t)
      invariant limiter.lastRefill <= clock.now
      decreases 1 - slept
    {
      var now := clock.Read();
      ghost var w := limiter.View();
      assert slept == 1 ==> Grants(limiter.config, w, now);
      var wait := limiter.Cal(now);
      if wait == 0.0 {
        return Called;
      }
      if sleepAndRetry {
        assert 0.0 < wait;
        clock.Sleep(wait);
        slept := slept + 1;
        forall t | t >= clock.now ensures Grants(limiter.config, limiter.View(), t) {
          RefusalIsHonest(limiter.config, w, now, t);
        }
      } else if raise {
        return Refused(wait);
      } else {
        return Skipped;
      }
    }
  }
}
