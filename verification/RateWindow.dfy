/**
 The server's fixed-window rate limiter: at most `maxCount` calls are let through in a window,
 which begins with the first call after the previous window has run out.
 */
module RateWindow {

  datatype Window = Window(start: int, count: int, initialized: bool)

  function Empty(): Window {
    Window(0, 0, false)
  }

  /** The window a call at `now` falls into. */
  function Roll(w: Window, windowSeconds: int, now: int): Window {
    if !w.initialized || now - w.start >= windowSeconds then Window(now, 0, true) else w
  }

  function Allow(w: Window, maxCount: int, windowSeconds: int, now: int): (Window, bool) {
    var r := Roll(w, windowSeconds, now);
    if r.count >= maxCount then (r, false) else (r.(count := r.count + 1), true)
  }

  /** The limiter's state after calls at these times. */
  function After(times: seq<int>, maxCount: int, windowSeconds: int): Window {
    if times == [] then Empty()
    else Allow(After(times[..|times| - 1], maxCount, windowSeconds), maxCount, windowSeconds, times[|times| - 1]).0
  }

  predicate Allowed(times: seq<int>, k: nat, maxCount: int, windowSeconds: int)
    requires k < |times|
  {
    Allow(After(times[..k], maxCount, windowSeconds), maxCount, windowSeconds, times[k]).1
  }

  predicate Ascending(times: seq<int>) {
    forall i, j :: 0 <= i < j < |times| ==> times[i] <= times[j]
  }

  /** How many of the first k calls were let through at times in [a, a + windowSeconds). */
  function Passed(times: seq<int>, k: nat, maxCount: int, windowSeconds: int, a: int): nat
    requires k <= |times|
  {
    if k == 0 then 0
    else
      Passed(times, k - 1, maxCount, windowSeconds, a)
      + if a <= times[k - 1] < a + windowSeconds && Allowed(times, k - 1, maxCount, windowSeconds) then 1 else 0
  }

  lemma {:induction false} PassedNothing(times: seq<int>, k: nat, maxCount: int, windowSeconds: int, a: int)
    requires k <= |times| && forall j :: 0 <= j < k ==> times[j] < a
    ensures Passed(times, k, maxCount, windowSeconds, a) == 0
  {
    if k > 0 {
      PassedNothing(times, k - 1, maxCount, windowSeconds, a);
    }
  }

  /** The call that began the window the first k calls end in: the times alone decide it. */
  function First(times: seq<int>, k: nat, windowSeconds: int): (first: nat)
    requires k <= |times|
    ensures first <= k && (k > 0 ==> first < k)
  {
    if k <= 1 then 0
    else
      var before := First(times, k - 1, windowSeconds);
      if times[k - 1] - times[before] >= windowSeconds then k - 1 else before
  }

  /** How many of the calls from..k were let through. */
  function LetThrough(times: seq<int>, from: nat, k: nat, maxCount: int, windowSeconds: int): nat
    requires k <= |times|
  {
    if k <= from then 0
    else
      LetThrough(times, from, k - 1, maxCount, windowSeconds) + if Allowed(times, k - 1, maxCount, windowSeconds) then 1 else 0
  }

  /** After k calls: the current window began with call `first` and holds the calls since. */
  ghost predicate CurrentWindow(times: seq<int>, k: nat, first: nat, maxCount: int, windowSeconds: int)
    requires k <= |times|
  {
    var w := After(times[..k], maxCount, windowSeconds);
    && first <= k && w.count == LetThrough(times, first, k, maxCount, windowSeconds) <= maxCount && (w.initialized <==> k > 0)
    && (k > 0 ==> first < k && times[first] == w.start && w.count > 0)
    && (forall j :: 0 <= j < first ==> times[j] < w.start)
    && (forall j :: first <= j < k ==> w.start <= times[j] < w.start + windowSeconds)
  }

  /**
   Calls let through in an interval: those of the current window number at most its count, one
   less when the interval begins after the window does, none when it ends before; those of earlier
   windows at most 2 * maxCount - 1, and at most maxCount - 1 when the interval reaches the current one.
   */
  ghost predicate PassedBounded(times: seq<int>, k: nat, first: nat, maxCount: int, windowSeconds: int, a: int)
    requires first <= k <= |times|
  {
    var w := After(times[..k], maxCount, windowSeconds);
    var earlier := Passed(times, first, maxCount, windowSeconds, a);
    var all := Passed(times, k, maxCount, windowSeconds, a);
    && earlier <= 2 * maxCount - 1
    && all <= earlier + w.count
    && (k > 0 ==>
          && (a > w.start ==> all <= earlier + w.count - 1)
          && (a + windowSeconds <= w.start ==> all == earlier)
          && (a + windowSeconds > w.start ==> earlier <= maxCount - 1))
  }

  /** A window begins with a call, and lets through at most maxCount of the calls since, which is what the limiter counts. */
  lemma {:induction false} WindowHolds(times: seq<int>, k: nat, maxCount: int, windowSeconds: int)
    requires k <= |times| && Ascending(times) && maxCount > 0 && windowSeconds > 0
    ensures CurrentWindow(times, k, First(times, k, windowSeconds), maxCount, windowSeconds)
  {
    if k > 0 {
      WindowHolds(times, k - 1, maxCount, windowSeconds);
      CallKeepsWindow(times, k, maxCount, windowSeconds);
    }
  }

  /** One more call: it belongs to the current window, or begins the next one. */
  lemma CallKeepsWindow(times: seq<int>, k: nat, maxCount: int, windowSeconds: int)
    requires 0 < k <= |times| && Ascending(times) && maxCount > 0 && windowSeconds > 0
    requires CurrentWindow(times, k - 1, First(times, k - 1, windowSeconds), maxCount, windowSeconds)
    ensures CurrentWindow(times, k, First(times, k, windowSeconds), maxCount, windowSeconds)
  {
    assert times[..k][..k - 1] == times[..k - 1];
    var w := After(times[..k - 1], maxCount, windowSeconds);
    var first := First(times, k - 1, windowSeconds);
    if k > 1 && times[k - 1] - times[first] < windowSeconds {
      assert First(times, k, windowSeconds) == first;
      assert times[k - 1] >= times[first];
    } else {
      assert First(times, k, windowSeconds) == k - 1;
      assert LetThrough(times, k - 1, k - 1, maxCount, windowSeconds) == 0;
    }
  }

  lemma {:induction false} PassedStaysBounded(times: seq<int>, k: nat, maxCount: int, windowSeconds: int, a: int)
    requires k <= |times| && Ascending(times) && maxCount > 0 && windowSeconds > 0
    ensures CurrentWindow(times, k, First(times, k, windowSeconds), maxCount, windowSeconds)
    ensures PassedBounded(times, k, First(times, k, windowSeconds), maxCount, windowSeconds, a)
  {
    WindowHolds(times, k, maxCount, windowSeconds);
    if k > 0 {
      PassedStaysBounded(times, k - 1, maxCount, windowSeconds, a);
      assert times[..k][..k - 1] == times[..k - 1];
      var w := After(times[..k - 1], maxCount, windowSeconds);
      var first := First(times, k - 1, windowSeconds);
      if k > 1 && times[k - 1] - w.start >= windowSeconds && a + windowSeconds > times[k - 1] {
        PassedNothing(times, first, maxCount, windowSeconds, a);
      }
    }
  }

  /** For calls at non-decreasing times, any interval of windowSeconds lets at most 2 * maxCount - 1 through. */
  lemma IntervalBound(times: seq<int>, maxCount: int, windowSeconds: int, a: int)
    requires Ascending(times) && maxCount > 0 && windowSeconds > 0
    ensures Passed(times, |times|, maxCount, windowSeconds, a) <= 2 * maxCount - 1
  {
    PassedStaysBounded(times, |times|, maxCount, windowSeconds, a);
  }

  /** With nothing allowed, nothing passes, however the windows fall. */
  lemma {:induction false} NothingAllowed(times: seq<int>, k: nat, maxCount: int, windowSeconds: int, a: int)
    requires k <= |times| && maxCount <= 0
    ensures Passed(times, k, maxCount, windowSeconds, a) == 0
    ensures After(times[..k], maxCount, windowSeconds).count == 0
  {
    if k > 0 {
      NothingAllowed(times, k - 1, maxCount, windowSeconds, a);
      assert times[..k][..k - 1] == times[..k - 1];
    }
  }

  /** With one-second windows, times being whole seconds, an interval is a single second and lets at most maxCount through. */
  lemma {:induction false} OneSecondBound(times: seq<int>, k: nat, maxCount: int, a: int)
    requires k <= |times| && Ascending(times) && maxCount > 0
    ensures Passed(times, k, maxCount, 1, a) <= maxCount
  {
    if k > 0 {
      var first := First(times, k, 1);
      var w := After(times[..k], maxCount, 1);
      PassedStaysBounded(times, k, maxCount, 1, a);
      OneSecondBound(times, first, maxCount, a);
      if a > w.start {
        PassedNothing(times, k, maxCount, 1, a);
      } else if a == w.start {
        PassedNothing(times, first, maxCount, 1, a);
      }
    }
  }

  /** One call at 0, the rest of its window's at the last second, a whole window's right after. */
  function Burst(maxCount: int, windowSeconds: int): seq<int>
    requires maxCount > 0
  {
    seq(2 * maxCount, i => if i == 0 then 0 else if i < maxCount then windowSeconds - 1 else windowSeconds)
  }

  /** The limiter after k calls of the burst. */
  function BurstState(maxCount: int, windowSeconds: int, k: nat): Window {
    if k == 0 then Empty()
    else if k <= maxCount then Window(0, k, true)
    else Window(windowSeconds, k - maxCount, true)
  }

  lemma BurstCall(maxCount: int, windowSeconds: int, k: nat)
    requires maxCount > 0 && windowSeconds >= 2 && 0 < k <= 2 * maxCount
    ensures var t := Burst(maxCount, windowSeconds)[k - 1];
            && Allow(BurstState(maxCount, windowSeconds, k - 1), maxCount, windowSeconds, t)
               == (BurstState(maxCount, windowSeconds, k), true)
            && t <= windowSeconds && (t >= windowSeconds - 1 <==> k > 1)
  {
  }

  lemma {:induction false} BurstPasses(maxCount: int, windowSeconds: int, k: nat)
    requires maxCount > 0 && windowSeconds >= 2 && k <= 2 * maxCount
    ensures var times := Burst(maxCount, windowSeconds);
            && After(times[..k], maxCount, windowSeconds) == BurstState(maxCount, windowSeconds, k)
            && Passed(times, k, maxCount, windowSeconds, windowSeconds - 1) == if k == 0 then 0 else k - 1
  {
    if k > 0 {
      var times := Burst(maxCount, windowSeconds);
      BurstPasses(maxCount, windowSeconds, k - 1);
      assert times[..k][..k - 1] == times[..k - 1];
      BurstCall(maxCount, windowSeconds, k);
      hide Burst, BurstState, Allow;
    }
  }

  /** For windows of two seconds and more the bound of IntervalBound is reached, whatever maxCount is. */
  lemma IntervalBoundReached(maxCount: int, windowSeconds: int)
    requires maxCount > 0 && windowSeconds >= 2
    ensures exists times, a :: Ascending(times) && Passed(times, |times|, maxCount, windowSeconds, a) == 2 * maxCount - 1
  {
    BurstPasses(maxCount, windowSeconds, 2 * maxCount);
    var times := Burst(maxCount, windowSeconds);
    assert Ascending(times) && Passed(times, |times|, maxCount, windowSeconds, windowSeconds - 1) == 2 * maxCount - 1;
  }

  /** For one-second windows maxCount is. */
  lemma OneSecondBoundReached(maxCount: int)
    requires maxCount > 0
    ensures exists times, a :: Ascending(times) && Passed(times, |times|, maxCount, 1, a) == maxCount
  {
    var times := seq(maxCount, i => 0);
    SameSecondPasses(times, maxCount, |times|);
    assert Ascending(times) && Passed(times, |times|, maxCount, 1, 0) == maxCount;
  }

  lemma {:induction false} SameSecondPasses(times: seq<int>, maxCount: int, k: nat)
    requires k <= |times| <= maxCount && forall i :: 0 <= i < |times| ==> times[i] == 0
    ensures After(times[..k], maxCount, 1) == if k == 0 then Empty() else Window(0, k, true)
    ensures Passed(times, k, maxCount, 1, 0) == k
  {
    if k > 0 {
      SameSecondPasses(times, maxCount, k - 1);
      assert times[..k][..k - 1] == times[..k - 1];
    }
  }

  /** A call is refused exactly when it falls into the current window and that has let maxCount calls through. */
  lemma RefusedExactlyWhenFull(times: seq<int>, k: nat, maxCount: int, windowSeconds: int)
    requires k < |times| && Ascending(times) && maxCount > 0 && windowSeconds > 0
    ensures var first := First(times, k, windowSeconds);
            !Allowed(times, k, maxCount, windowSeconds)
            <==> k > 0 && times[k] - times[first] < windowSeconds && LetThrough(times, first, k, maxCount, windowSeconds) == maxCount
  {
    WindowHolds(times, k, maxCount, windowSeconds);
  }

  class RateWindow {
    const maxCount: int
    const windowSeconds: int
    var windowStart: int
    var count: int
    var initialized: bool

    constructor (maxCount: int, windowSeconds: int)
      ensures this.maxCount == maxCount && this.windowSeconds == windowSeconds && View() == Empty()
    {
      this.maxCount, this.windowSeconds := maxCount, windowSeconds;
      windowStart, count, initialized := 0, 0, false;
    }

    function View(): Window
      reads this
    {
      Window(windowStart, count, initialized)
    }

    method AllowCall(nowSecs: int) returns (allowed: bool)
      modifies this
      ensures (View(), allowed) == Allow(old(View()), maxCount, windowSeconds, nowSecs)
    {
      if !initialized || nowSecs - windowStart >= windowSeconds {
        windowStart := nowSecs;
        count := 0;
        initialized := true;
      }
      if count >= maxCount {
        return false;
      }
      count := count + 1;
      return true;
    }

    method Reset()
      modifies this
      ensures View() == Empty()
    {
      windowStart, count, initialized := 0, 0, false;
    }
  }
}
