/** The monotone clock and the sleep that the limiters use. */
module Clocks {

  /** A monotone clock: time passes between any two readings, and a sleep lasts at least as long as asked. */
  class Clock {
    var now: real
    ghost var sleeps: nat

    constructor (start: real)
      ensures now == start && sleeps == 0
    {
      now, sleeps := start, 0;
    }

    method Read() returns (t: real)
      modifies this`now
      ensures t == now >= old(now)
    {
      var d: real := *;
      if d < 0.0 {
        d := 0.0;
      }
      now := now + d;
      t := now;
    }

    method Sleep(w: real)
      modifies this
      ensures now >= old(now) + w && now >= old(now) && sleeps == old(sleeps) + 1
    {
      var d: real := *;
      if d < 0.0 || d < w {
        d := if w > 0.0 then w else 0.0;
      }
      now := now + d;
      sleeps := sleeps + 1;
    }
  }
}
