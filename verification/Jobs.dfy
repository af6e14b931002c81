/**
 Job scheduling (internal/jobs/jobs.go): the bisection that finds the last missed tick,
 and the catch-up decision. Times are integer nanoseconds.
 */
module Jobs {

  const Second := 1_000_000_000

  /** next(x) is the first tick strictly after x. */
  ghost predicate FirstAfter(tick: int -> bool, next: int -> int) {
    forall x :: next(x) > x && tick(next(x)) && forall y :: x < y < next(x) ==> !tick(y)
  }

  /** The last tick at or before `now`. */
  ghost predicate LastTick(tick: int -> bool, now: int, t: int) {
    t <= now && tick(t) && forall y :: t < y <= now ==> !tick(y)
  }

  /** No two ticks are closer than a second. */
  ghost predicate Spaced(tick: int -> bool) {
    forall a, b :: tick(a) && tick(b) && a < b ==> b - a >= Second
  }

  function Pow2(k: nat): nat { if k == 0 then 1 else 2 * Pow2(k - 1) }

  /** Halving, rounded up, loses one power. */
  lemma HalfFits(d: int, k: nat)
    requires 0 <= d <= Pow2(k) * Second && d > Second
    ensures k >= 1 && d / 2 <= Pow2(k - 1) * Second && d - d / 2 <= Pow2(k - 1) * Second
  {
    assert Pow2(0) == 1;
  }

  /**
   Bisect the schedule's staircase. With a tick missed in (after, now] the result is a
   tick in that range less than a second from the last one, and it is the last one when
   ticks are a second apart; an outage of at most 2^k seconds takes at most k + 1 probes.
   Without a missed tick the result lies beyond now.
   */
  method LastTickBefore(ghost tick: int -> bool, next: int -> int, after: int, now: int, ghost k: nat)
    returns (t: int, ghost probes: nat)
    requires FirstAfter(tick, next) && after <= now <= after + Pow2(k) * Second
    ensures next(after) > now ==> t > now
    ensures next(after) <= now ==> after < t <= now && tick(t)
    ensures next(after) <= now ==> forall l :: LastTick(tick, now, l) ==> t <= l < t + Second
    ensures next(after) <= now && Spaced(tick) ==> LastTick(tick, now, t)
    ensures probes <= k + 1
  {
    var lo, hi := after, now;
    probes := 0;
    ghost var left := k;
    while hi - lo > Second
      invariant after <= lo <= hi <= now && probes + left == k && hi - lo <= Pow2(left) * Second
      invariant next(after) <= now ==> next(lo) <= now
      invariant next(after) > now ==> next(lo) > now
      invariant next(hi) > now
      decreases hi - lo
    {
      HalfFits(hi - lo, left);
      var mid := lo + (hi - lo) / 2;
      if next(mid) > now {
        hi := mid;
      } else {
        if next(after) > now { NextGrows(tick, next, after, mid); }
        lo := mid;
      }
      probes, left := probes + 1, left - 1;
    }
    t, probes := next(lo), probes + 1;
    if next(after) <= now {
      forall l | LastTick(tick, now, l) ensures t <= l < t + Second {
        assert tick(l) && l > lo;
        assert l <= hi;
      }
      if Spaced(tick) {
        forall y | t < y <= now ensures !tick(y) { assert tick(y) ==> y <= hi; }
      }
    }
  }

  lemma NextGrows(tick: int -> bool, next: int -> int, a: int, b: int)
    requires FirstAfter(tick, next) && a <= b
    ensures next(a) <= next(b)
  {
    assert tick(next(b)) && next(b) > a;
  }

  datatype Option = None | Some(tick: int)

  /** The catch-up rule on a fixed tick set: at most the newest missed tick, and only inside the window. */
  ghost predicate CaughtUp(tick: int -> bool, window: int, last: int, now: int, fired: Option) {
    if exists t :: LastTick(tick, now, t) && t > last && now - t <= window
    then fired.Some? && LastTick(tick, now, fired.tick) && fired.tick > last
    else fired.None?
  }

  /**
   Catch up after an outage: fire the most recent missed tick if it lies inside the window,
   and count an episode once when some missed tick lies outside.
   */
  method MaybeCatchup(ghost tick: int -> bool, next: int -> int, window: int, last: Option, now: int)
    returns (fired: Option, skipped: bool)
    requires FirstAfter(tick, next) && Spaced(tick)
    ensures window <= 0 || last.None? ==> fired.None? && !skipped
    ensures window > 0 && last.Some? ==> CaughtUp(tick, window, last.tick, now, fired)
    ensures skipped <==> window > 0 && last.Some? && exists t :: tick(t) && last.tick < t < now - window
  {
    if window <= 0 || last.None? { return None, false; }
    var first := next(last.tick);
    if first > now {
      assert forall t :: tick(t) && t > last.tick ==> t > now;
      return None, false;
    }
    skipped := now - first > window;
    assert skipped ==> tick(first) && last.tick < first < now - window;
    ghost var k := Enough(now - last.tick);
    var latest, _ := LastTickBefore(tick, next, last.tick, now, k);
    if now - latest > window {
      assert forall t :: LastTick(tick, now, t) ==> t == latest;
      return None, skipped;
    }
    fired := Some(latest);
  }

  ghost function Enough(d: int): (k: nat)
    ensures d <= Pow2(k) * Second
    decreases if d > 0 then d else 0
  {
    if d <= Second then 0 else 1 + Enough(d - d / 2)
  }
}
