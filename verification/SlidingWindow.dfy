/** The sliding-window limiter (backend/app/providers/egress/webshare.py, SlidingWindowLimiter). */
module SlidingWindow {
  import opened Wrappers

  ghost predicate Sorted(log: seq<real>) {
    forall i, j | 0 <= i <= j < |log| :: log[i] <= log[j]
  }

  /** Any `limit` consecutive acquires, and the next one, span at least the window. */
  ghost predicate Spaced(log: seq<real>, limit: int, window: real) {
    limit >= 1 ==> forall i | 0 <= i < |log| - limit :: log[i] + window <= log[i + limit]
  }

  /** The acquires in the window that opens at `start`, which is not part of it. */
  function Inside(log: seq<real>, start: real, window: real): nat {
    if log == [] then 0
    else
      var last := log[|log| - 1];
      Inside(log[..|log| - 1], start, window) + if start < last <= start + window then 1 else 0
  }

  lemma {:induction false} NothingInside(log: seq<real>, start: real, window: real)
    requires forall i | 0 <= i < |log| :: log[i] <= start
    ensures Inside(log, start, window) == 0
  {
    if log != [] {
      NothingInside(log[..|log| - 1], start, window);
    }
  }

  lemma {:induction false} InsideAtMostLength(a: seq<real>, b: seq<real>, start: real, window: real)
    ensures Inside(a + b, start, window) <= Inside(a, start, window) + |b|
  {
    if b == [] {
      assert a + b == a;
    } else {
      var n := |b| - 1;
      assert (a + b)[..|a| + n] == a + b[..n];
      InsideAtMostLength(a, b[..n], start, window);
    }
  }

  /** Rate bound: a spaced log has at most `limit` acquires in every window, wherever it opens. */
  lemma {:induction false} RateBound(log: seq<real>, limit: int, window: real, start: real)
    requires limit >= 1 && Sorted(log) && Spaced(log, limit, window)
    ensures Inside(log, start, window) <= limit
  {
    var n := |log| - 1;
    if n + 1 > limit {
      var front := log[..n];
      if log[n] <= start + window {
        var early, late := log[..|log| - limit], log[|log| - limit..];
        assert log == early + late;
        assert log[n - limit] + window <= log[n - limit + limit];
        forall i | 0 <= i < |early|
          ensures early[i] <= start
        {
          assert log[i] <= log[n - limit];
        }
        NothingInside(early, start, window);
        InsideAtMostLength(early, late, start, window);
      } else {
        RateBound(front, limit, window, start);
      }
    } else {
      InsideAtMostLength([], log, start, window);
      assert [] + log == log;
    }
  }

  ghost predicate LogOk(log: seq<real>, limit: int, window: real) {
    Sorted(log) && Spaced(log, limit, window)
  }

  lemma Appended(log: seq<real>, limit: int, window: real, t: real)
    requires LogOk(log, limit, window) && limit >= 1 && !Full(log, limit, window, t)
    requires forall i | 0 <= i < |log| :: log[i] <= t
    ensures LogOk(log + [t], limit, window)
  {
  }

  /** At time `t` the last `limit` acquires are all still inside the window. */
  predicate Full(log: seq<real>, limit: int, window: real, t: real) {
    limit >= 1 && |log| >= limit && log[|log| - limit] + window > t
  }

  /** The deque holds the end of the log, nothing older than a window, and at most `limit` events. */
  ghost predicate Tail(events: seq<real>, log: seq<real>, limit: int, window: real, clock: real) {
    && |events| <= |log| && events == log[|log| - |events|..]
    && (if limit >= 1 then |events| <= limit else log == [])
    && (forall i | 0 <= i < |log| :: log[i] <= clock)
    && (forall i | 0 <= i < |log| - |events| :: log[i] + window <= clock)
  }

  /** After pruning, the deque is at its limit exactly when the window is full. */
  lemma PrunedTellsFull(events: seq<real>, log: seq<real>, limit: int, window: real, now: real)
    requires Tail(events, log, limit, window, now) && limit >= 1
    requires events != [] ==> events[0] + window > now
    ensures |events| >= limit <==> Full(log, limit, window, now)
    ensures Full(log, limit, window, now) ==> events != [] && events[0] == log[|log| - limit]
  {
  }

  lemma TailAppend(events: seq<real>, log: seq<real>, limit: int, window: real, t: real)
    requires Tail(events, log, limit, window, t) && limit >= 1 && |events| < limit
    ensures Tail(events + [t], log + [t], limit, window, t)
  {
  }

  lemma TailDrop(events: seq<real>, log: seq<real>, limit: int, window: real, t: real)
    requires Tail(events, log, limit, window, t) && events != [] && events[0] + window <= t
    ensures Tail(events[1..], log, limit, window, t)
  {
  }

  lemma TailLater(events: seq<real>, log: seq<real>, limit: int, window: real, t: real, t': real)
    requires Tail(events, log, limit, window, t) && t <= t'
    ensures Tail(events, log, limit, window, t')
  {
  }

  class Limiter {
    const limit: int
    const window: real
    var events: seq<real>        // the deque
    ghost var log: seq<real>     // every acquire there ever was
    ghost var clock: real        // the last reading of the clock

    ghost predicate Valid()
      reads this
    {
      Tail(events, log, limit, window, clock) && LogOk(log, limit, window)
    }

    constructor (limit: int, window: real, now: real)
      ensures Valid() && this.limit == limit && this.window == window && log == [] && clock == now
    {
      this.limit, this.window := limit, window;
      events, log, clock := [], [], now;
    }

    /** Events at the left end that are a whole window old are dropped. */
    method Prune(now: real)
      requires Valid() && clock <= now
      modifies this`events, this`clock
      ensures Valid() && clock == now
      ensures events != [] ==> events[0] + window > now
    {
      hide Tail, LogOk;
      TailLater(events, log, limit, window, clock, now);
      clock := now;
      while events != [] && events[0] <= now - window
        invariant Valid() && clock == now
        decreases |events|
      {
        TailDrop(events, log, limit, window, now);
        events := events[1..];
      }
    }

    /** `acquire`. `now` is the clock on entry and `later` the clock after a sleep; `asked` is the
        sleep it asked for. It sleeps exactly when the window is full, and exactly until the oldest of
        the last `limit` acquires has left it; only a limit below one makes it fail. */
    method Acquire(now: real, later: real) returns (asked: Option<real>, failed: bool)
      requires Valid() && clock <= now
      requires Full(log, limit, window, now) ==> later >= now + (log[|log| - limit] + window - now)
      modifies this`events, this`log, this`clock
      ensures Valid()
      ensures failed <==> limit < 1
      ensures asked.Some? <==> Full(old(log), limit, window, now)
      ensures asked.Some? ==> asked.value > 0.0 && asked.value == old(log)[|old(log)| - limit] + window - now
      ensures log == if failed then old(log) else old(log) + [if asked.Some? then later else now]
    {
      hide LogOk;
      asked, failed := None, false;
      Prune(now);
      var time := now;
      if |events| >= limit {
        if events == [] {
          return None, true;
        }
        PrunedTellsFull(events, log, limit, window, now);
        var wait := window - (now - events[0]);
        asked := Some(if wait > 0.0 then wait else 0.0);
        time := later;
        Prune(later);
      }
      PrunedTellsFull(events, log, limit, window, time);
      Record(time);
    }

    method Record(time: real)
      requires Valid() && limit >= 1 && clock == time && |events| < limit && !Full(log, limit, window, time)
      modifies this`events, this`log
      ensures Valid() && log == old(log) + [time]
    {
      hide LogOk, Full;
      Appended(log, limit, window, time);
      TailAppend(events, log, limit, window, time);
      events := events + [time];
      log := log + [time];
    }
  }
}
