/** The client-side rate limit in front of the Brave Search API: under a lock, `brave_search`
    sleeps until `MIN_REQUEST_INTERVAL` has passed since the last recorded request, then records
    the clock. Times are exact reals; the clock and the sleep are parameters. */
module RateLimiter {

  /** `last_brave_request[0]`: the clock reading recorded by the previous search, 0 at start. */
  datatype Limiter = Limiter(last: real)

  const Initial := Limiter(0.0)

  /** How long the limiter sleeps when asked at `now`. */
  function SleepTime(l: Limiter, interval: real, now: real): (r: real)
    ensures r >= 0.0
    ensures now - l.last >= interval ==> r == 0.0
    ensures now - l.last < interval ==> now + r == l.last + interval
  {
    var since := now - l.last;
    if since < interval then interval - since else 0.0
  }

  /** One pass through the lock at clock reading `now`. `lag` is the time that passes beyond the
      requested sleep before the clock is read again: `time.sleep` never returns early, so it is
      not negative. The recorded time is at least one interval after the previous one, whatever
      the clock said, and never before `now`. */
  function Throttle(l: Limiter, interval: real, now: real, lag: real): (r: Limiter)
    requires lag >= 0.0
    ensures r.last >= l.last + interval
    ensures r.last >= now
    ensures now - l.last >= interval ==> r.last == now + lag
  {
    Limiter(now + SleepTime(l, interval, now) + lag)
  }

  /** One search's view of the clock: the reading on entering the lock and the lag after the
      sleep. */
  datatype Tick = Tick(now: real, lag: real)

  predicate ValidTicks(ticks: seq<Tick>) {
    forall k :: 0 <= k < |ticks| ==> ticks[k].lag >= 0.0
  }

  /** The times recorded by a run of searches, one per tick, in order. */
  function Schedule(l: Limiter, interval: real, ticks: seq<Tick>): (r: seq<real>)
    requires ValidTicks(ticks)
    ensures |r| == |ticks|
    decreases |ticks|
  {
    if ticks == [] then []
    else
      var next := Throttle(l, interval, ticks[0].now, ticks[0].lag);
      [next.last] + Schedule(next, interval, ticks[1..])
  }

  /** Every recorded time is at least `k + 1` intervals after the limiter's starting time. */
  lemma {:induction false} ScheduleAfterStart(l: Limiter, interval: real, ticks: seq<Tick>, k: nat)
    requires ValidTicks(ticks) && k < |ticks|
    ensures Schedule(l, interval, ticks)[k] >= l.last + (k + 1) as real * interval
    decreases k
  {
    var next := Throttle(l, interval, ticks[0].now, ticks[0].lag);
    if k > 0 {
      assert ValidTicks(ticks[1..]) by {
        forall j | 0 <= j < |ticks[1..]| ensures ticks[1..][j].lag >= 0.0 {
          assert ticks[1..][j] == ticks[j + 1];
        }
      }
      ScheduleAfterStart(next, interval, ticks[1..], k - 1);
      assert Schedule(l, interval, ticks)[k] == Schedule(next, interval, ticks[1..])[k - 1];
    }
  }

  /** Any two recorded times are at least as many intervals apart as they are searches apart:
      however the calls bunch up, at most `RATE_LIMIT_RPS` requests are recorded per second. */
  lemma {:induction false} ScheduleSpacing(l: Limiter, interval: real, ticks: seq<Tick>, i: nat, j: nat)
    requires ValidTicks(ticks) && i < j < |ticks|
    ensures Schedule(l, interval, ticks)[j] - Schedule(l, interval, ticks)[i] >= (j - i) as real * interval
    decreases i
  {
    var next := Throttle(l, interval, ticks[0].now, ticks[0].lag);
    assert ValidTicks(ticks[1..]) by {
      forall m | 0 <= m < |ticks[1..]| ensures ticks[1..][m].lag >= 0.0 {
        assert ticks[1..][m] == ticks[m + 1];
      }
    }
    assert Schedule(l, interval, ticks)[j] == Schedule(next, interval, ticks[1..])[j - 1];
    if i == 0 {
      ScheduleAfterStart(next, interval, ticks[1..], j - 1);
    } else {
      assert Schedule(l, interval, ticks)[i] == Schedule(next, interval, ticks[1..])[i - 1];
      ScheduleSpacing(next, interval, ticks[1..], i - 1, j - 1);
    }
  }
}
