// The idle timer of the server pod (images/data-exporter/internal/ttl_control/timer.go): byte counts and ticker ticks
// arrive in one event loop; silence longer than the time to live sends one expiry.
module IdleTimers {
  import opened Options

  datatype Event = Bytes(n: nat) | Tick(now: int) | Stop // Stop: the channel is closed or the context is done

  // What the loop keeps and what it has sent: timestamps on TickerChan, expiries on ExpiredChan.
  datatype Timer = Timer(
    previous: nat, current: nat, last: int, expired: bool, published: seq<int>, expiries: seq<int>)

  function NewTimer(start: int): Timer {
    Timer(0, 0, start, false, [start], [])
  }

  function OnTick(t: Timer, ttl: int, now: int): Timer {
    if t.current > t.previous then t.(last := now, previous := t.current, published := t.published + [now])
    else if now - t.last > ttl && !t.expired then t.(expired := true, expiries := t.expiries + [now])
    else t
  }

  /** The part of a trace the loop gets to see. */
  function BeforeStop(trace: seq<Event>): (r: seq<Event>)
    ensures r <= trace
    ensures Stop !in r
    ensures |r| < |trace| ==> trace[|r|] == Stop
  {
    if trace == [] || trace[0] == Stop then []
    else [trace[0]] + BeforeStop(trace[1..])
  }

  function After(start: int, ttl: int, trace: seq<Event>): Timer {
    if trace == [] then NewTimer(start)
    else
      var t := After(start, ttl, trace[..|trace| - 1]);
      match trace[|trace| - 1]
      case Bytes(n) => t.(current := t.current + n)
      case Tick(now) => OnTick(t, ttl, now)
      case Stop => t
  }

  // ---- what the timer is for, said of the trace alone ----

  /** Some byte was counted since the last tick. */
  predicate BytesPending(trace: seq<Event>) {
    if trace == [] then false
    else
      var front := trace[..|trace| - 1];
      match trace[|trace| - 1]
      case Bytes(n) => n > 0 || BytesPending(front)
      case Tick(_) => false
      case Stop => BytesPending(front)
  }

  /** The last tick that saw new bytes, or the start. */
  function LastActive(start: int, trace: seq<Event>): int {
    if trace == [] then start
    else
      var front, last := trace[..|trace| - 1], trace[|trace| - 1];
      if last.Tick? && BytesPending(front) then last.now else LastActive(start, front)
  }

  /** The first tick without new bytes more than ttl after the last active one. */
  function FirstExpiry(start: int, ttl: int, trace: seq<Event>): Option<int> {
    if trace == [] then None
    else
      var front, last := trace[..|trace| - 1], trace[|trace| - 1];
      var earlier := FirstExpiry(start, ttl, front);
      if earlier.Some? then earlier
      else if last.Tick? && !BytesPending(front) && last.now - LastActive(start, front) > ttl then Some(last.now)
      else None
  }

  /** The times of the ticks that saw new bytes. */
  function ActiveTicks(trace: seq<Event>): seq<int> {
    if trace == [] then []
    else
      var front, last := trace[..|trace| - 1], trace[|trace| - 1];
      ActiveTicks(front) + if last.Tick? && BytesPending(front) then [last.now] else []
  }

  /** The counters track the trace: expiry is sent at FirstExpiry and never again, and previous <= current. */
  lemma {:induction false} CountersTrackTrace(start: int, ttl: int, trace: seq<Event>)
    ensures var t := After(start, ttl, trace);
            && t.previous <= t.current
            && (t.current > t.previous <==> BytesPending(trace))
            && t.last == LastActive(start, trace)
            && t.published == [start] + ActiveTicks(trace)
            && t.expired == FirstExpiry(start, ttl, trace).Some?
            && t.expiries == match FirstExpiry(start, ttl, trace) { case None => [] case Some(e) => [e] }
  {
    if trace != [] {
      CountersTrackTrace(start, ttl, trace[..|trace| - 1]);
    }
  }

  /** No byte was counted between two moments of a trace. */
  predicate Silent(trace: seq<Event>, i: int, j: int)
    requires -1 <= i && j <= |trace|
  {
    forall k | i < k < j && trace[k].Bytes? :: trace[k].n == 0
  }

  lemma {:induction false} SilentSinceActive(start: int, trace: seq<Event>) returns (i: int)
    requires !BytesPending(trace)
    ensures -1 <= i < |trace| && Silent(trace, i, |trace|)
    ensures if i == -1 then LastActive(start, trace) == start else trace[i] == Tick(LastActive(start, trace))
  {
    if trace == [] {
      i := -1;
    } else {
      var front, last := trace[..|trace| - 1], trace[|trace| - 1];
      if last.Tick? && BytesPending(front) {
        i := |front|;
      } else {
        assert !BytesPending(front);
        i := SilentSinceActive(start, front);
        assert forall k | 0 <= k < |front| :: trace[k] == front[k];
      }
    }
  }

  /** An expiry is a tick more than ttl after an active tick or the start, with no byte counted in between. */
  lemma {:induction false} ExpiryMeansSilence(start: int, ttl: int, trace: seq<Event>) returns (i: int, j: nat)
    requires FirstExpiry(start, ttl, trace).Some?
    ensures -1 <= i < j < |trace| && trace[j] == Tick(FirstExpiry(start, ttl, trace).value)
    ensures Silent(trace, i, j)
    ensures if i == -1 then trace[j].now - start > ttl else trace[i].Tick? && trace[j].now - trace[i].now > ttl
  {
    var front := trace[..|trace| - 1];
    if FirstExpiry(start, ttl, front).Some? {
      i, j := ExpiryMeansSilence(start, ttl, front);
    } else {
      i := SilentSinceActive(start, front);
      j := |front|;
    }
    assert forall k | 0 <= k < |front| :: trace[k] == front[k];
  }

  // The clock of the trace does not run backwards.
  predicate Monotone(start: int, trace: seq<Event>) {
    && (forall i | 0 <= i < |trace| && trace[i].Tick? :: start <= trace[i].now)
    && (forall i, j | 0 <= i < j < |trace| && trace[i].Tick? && trace[j].Tick? :: trace[i].now <= trace[j].now)
  }

  predicate Sorted(s: seq<int>) {
    forall i, j | 0 <= i < j < |s| :: s[i] <= s[j]
  }

  /** The published access timestamps never go back, and the last one is the last activity. */
  lemma {:induction false} PublishedNeverGoesBack(start: int, ttl: int, trace: seq<Event>)
    requires Monotone(start, trace)
    ensures var t := After(start, ttl, trace);
            && t.published != [] && Sorted(t.published)
            && t.published[|t.published| - 1] == t.last
            && (t.last == start || exists i | 0 <= i < |trace| :: trace[i] == Tick(t.last))
  {
    if trace != [] {
      var front, last := trace[..|trace| - 1], trace[|trace| - 1];
      assert Monotone(start, front) by {
        assert forall k | 0 <= k < |front| :: front[k] == trace[k];
      }
      PublishedNeverGoesBack(start, ttl, front);
      var t := After(start, ttl, front);
      if t.last != start {
        var i :| 0 <= i < |front| && front[i] == Tick(t.last);
        assert trace[i] == Tick(t.last);
      }
      assert trace[|front|] == last;
    }
  }

  // ---- the loop ----

  class IdleTimer {
    const timeToLive: int
    const start: int
    var previousTickWrittenBytes: nat
    var currentTickWrittenBytes: nat
    var lastRequestTimestamp: int
    var expired: bool
    var tickerChan: seq<int>
    var expiredChan: seq<int>

    constructor (timeToLive: int, start: int)
      ensures this.timeToLive == timeToLive && this.start == start
      ensures previousTickWrittenBytes == 0 && currentTickWrittenBytes == 0 && lastRequestTimestamp == start
      ensures !expired && tickerChan == [] && expiredChan == []
    {
      this.timeToLive, this.start := timeToLive, start;
      previousTickWrittenBytes, currentTickWrittenBytes, lastRequestTimestamp := 0, 0, start;
      expired, tickerChan, expiredChan := false, [], [];
    }

    function Value(): Timer
      reads this
    {
      Timer(previousTickWrittenBytes, currentTickWrittenBytes, lastRequestTimestamp, expired, tickerChan, expiredChan)
    }

    method Tick(now: int)
      modifies this
      ensures Value() == OnTick(old(Value()), timeToLive, now)
    {
      if currentTickWrittenBytes > previousTickWrittenBytes {
        lastRequestTimestamp := now;
        previousTickWrittenBytes := currentTickWrittenBytes;
        tickerChan := tickerChan + [lastRequestTimestamp];
      } else if now - lastRequestTimestamp > timeToLive && !expired {
        expiredChan := expiredChan + [now];
        expired := true;
      }
    }

    method Run(trace: seq<Event>)
      requires Value() == Timer(0, 0, start, false, [], [])
      modifies this
      ensures Value() == After(start, timeToLive, BeforeStop(trace))
      ensures expiredChan == match FirstExpiry(start, timeToLive, BeforeStop(trace)) { case None => [] case Some(e) => [e] }
    {
      tickerChan := tickerChan + [lastRequestTimestamp];
      ghost var seen := BeforeStop(trace);
      var i := 0;
      assert seen[..0] == [];
      while i < |trace|
        invariant i <= |seen|
        invariant Value() == After(start, timeToLive, seen[..i])
      {
        if trace[i] == Stop {
          assert i == |seen|;
          break;
        }
        assert trace[i] == seen[i];
        assert seen[..i + 1][..i] == seen[..i];
        match trace[i] {
          case Bytes(n) =>
            currentTickWrittenBytes := currentTickWrittenBytes + n;
          case Tick(now) =>
            Tick(now);
          case Stop =>
        }
        i := i + 1;
      }
      assert seen[..i] == seen;
      CountersTrackTrace(start, timeToLive, seen);
    }
  }
}
