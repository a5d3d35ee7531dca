/** The fixed-window rate limiter that the dispatcher consults once per
    admitted request, keyed by client address. Each client owns one window:
    a start time and the number of calls counted since it. */
module RateLimit {
  import opened Wrappers

  datatype Window = Window(count: int, windowStart: int)

  /** The answer to one call and the client's window after it. */
  datatype Check = Check(window: Window, limited: bool)

  /** One admission check for a client whose current window is `w` (absent
      for a client never seen). A missing window, or one at least
      `interval` old, is replaced by a fresh window holding this call,
      which is allowed; otherwise the call is counted, and it is limited
      when the count before it had already reached `limit`. */
  function Admit(w: Option<Window>, limit: int, interval: int, now: int): (c: Check)
    ensures w.None? || now - w.value.windowStart >= interval ==>
      c.window == Window(1, now) && !c.limited
    ensures w.Some? && now - w.value.windowStart < interval ==>
      && c.window.windowStart == w.value.windowStart
      && c.window.count == w.value.count + 1
      && (c.limited <==> c.window.count > limit)
  {
    if w.None? || now - w.value.windowStart >= interval then Check(Window(1, now), false)
    else Check(Window(w.value.count + 1, w.value.windowStart), w.value.count >= limit)
  }

  /** The answers to successive calls of one client at the given times,
      starting from window `w`. */
  function Answers(w: Option<Window>, limit: int, interval: int, times: seq<int>): (r: seq<bool>)
    ensures |r| == |times|
    decreases |times|
  {
    if times == [] then []
    else
      var c := Admit(w, limit, interval, times[0]);
      [c.limited] + Answers(Some(c.window), limit, interval, times[1..])
  }

  /** The window reached after calls at `times`, starting from `w`. */
  function WindowAfter(w: Option<Window>, limit: int, interval: int, times: seq<int>): Option<Window>
    decreases |times|
  {
    if times == [] then w
    else WindowAfter(Some(Admit(w, limit, interval, times[0]).window), limit, interval, times[1..])
  }

  /** All `times` fall within `interval` of `start` and not before it. */
  predicate WithinWindow(start: int, interval: int, times: seq<int>)
  {
    forall i :: 0 <= i < |times| ==> start <= times[i] < start + interval
  }

  /** Within one window opened at `start`, calls continue the count: the
      window after `k` more calls at times inside it holds `count + k`. */
  lemma {:induction false} CountWithinWindow(count: int, start: int, limit: int, interval: int, times: seq<int>)
    requires WithinWindow(start, interval, times)
    ensures WindowAfter(Some(Window(count, start)), limit, interval, times) == Some(Window(count + |times|, start))
    ensures forall i :: 0 <= i < |times| ==>
      Answers(Some(Window(count, start)), limit, interval, times)[i] == (count + i >= limit)
    decreases |times|
  {
    if times != [] {
      var rest := times[1..];
      assert WithinWindow(start, interval, rest) by {
        forall i | 0 <= i < |rest| ensures start <= rest[i] < start + interval {
          assert rest[i] == times[i + 1];
        }
      }
      CountWithinWindow(count + 1, start, limit, interval, rest);
      var a := Answers(Some(Window(count, start)), limit, interval, times);
      assert a == [count >= limit] + Answers(Some(Window(count + 1, start)), limit, interval, rest);
      forall i | 0 <= i < |times| ensures a[i] == (count + i >= limit) {
        if i > 0 {
          assert a[i] == Answers(Some(Window(count + 1, start)), limit, interval, rest)[i - 1];
        }
      }
    }
  }

  /** A client whose calls open a fresh window and all fall inside it: the
      `i`-th call (from 0) is limited exactly when `i > 0` and `i >= limit`.
      With `limit >= 1` the first `limit` calls are allowed and every later
      one limited; the call that opens a window is allowed even when
      `limit <= 0`. */
  lemma FirstLimitCallsAdmitted(w: Option<Window>, limit: int, interval: int, times: seq<int>)
    requires times != [] && interval > 0
    requires w.None? || times[0] - w.value.windowStart >= interval
    requires WithinWindow(times[0], interval, times)
    ensures forall i :: 0 <= i < |times| ==>
      Answers(w, limit, interval, times)[i] == (i > 0 && i >= limit)
  {
    var rest := times[1..];
    assert WithinWindow(times[0], interval, rest) by {
      forall i | 0 <= i < |rest| ensures times[0] <= rest[i] < times[0] + interval {
        assert rest[i] == times[i + 1];
      }
    }
    CountWithinWindow(1, times[0], limit, interval, rest);
    var a := Answers(w, limit, interval, times);
    assert a == [false] + Answers(Some(Window(1, times[0])), limit, interval, rest);
    forall i | 0 <= i < |times| ensures a[i] == (i > 0 && i >= limit) {
      if i > 0 {
        assert a[i] == Answers(Some(Window(1, times[0])), limit, interval, rest)[i - 1];
      }
    }
  }

  /** Once `interval` has passed since a window opened, the next call is
      allowed whatever the count. */
  lemma WindowResets(w: Window, limit: int, interval: int, now: int)
    requires now - w.windowStart >= interval
    ensures !Admit(Some(w), limit, interval, now).limited
    ensures Admit(Some(w), limit, interval, now).window == Window(1, now)
  {
  }

  /** The limiter: one window per client address ever seen. */
  class RateLimiter {
    const limit: int
    const interval: int
    var windows: map<string, Window>

    /** A limiter allowing `limit` requests per `interval` milliseconds. */
    constructor (limit: int, interval: int)
      ensures this.limit == limit && this.interval == interval
      ensures windows == map[]
    {
      this.limit := limit;
      this.interval := interval;
      windows := map[];
    }

    /** The window of `client`, if it has one. */
    function WindowOf(client: string): Option<Window>
      reads this
    {
      if client in windows then Some(windows[client]) else None
    }

    /** Counts one call of `client` at time `now` and says whether it is
      limited; only that client's window changes. */
    method IsRateLimited(client: string, now: int) returns (limited: bool)
      modifies this
      ensures limited == Admit(old(WindowOf(client)), limit, interval, now).limited
      ensures windows == old(windows)[client := Admit(old(WindowOf(client)), limit, interval, now).window]
    {
      if client !in windows || now - windows[client].windowStart >= interval {
        windows := windows[client := Window(1, now)];
        return false;
      }
      var w := windows[client];
      windows := windows[client := Window(w.count + 1, w.windowStart)];
      limited := w.count >= limit;
    }
  }

  /** The scenario of the limiter's unit test: limit 2 per 1000 ms; two
      calls are allowed, a third within the second is limited, and a call
      once 1000 ms have passed since the first is allowed again. */
  method LimiterScenario(t1: int, t2: int, t3: int, t4: int)
    returns (r1: bool, r2: bool, r3: bool, r4: bool)
    requires t1 <= t2 <= t3 < t1 + 1000 && t4 >= t1 + 1000
    ensures !r1 && !r2 && r3 && !r4
  {
    var limiter := new RateLimiter(2, 1000);
    r1 := limiter.IsRateLimited("testClient", t1);
    r2 := limiter.IsRateLimited("testClient", t2);
    r3 := limiter.IsRateLimited("testClient", t3);
    r4 := limiter.IsRateLimited("testClient", t4);
  }
}
