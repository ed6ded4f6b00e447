/** The sliding-window limiter: values, the object, the bound it enforces and the
    retry time it reports. */
module RateLimiter {
  import opened Bytes

  datatype Limiter = Limiter(max: nat, window: nat, events: seq<int>)

  /** The events not yet older than the cutoff. */
  function Live(events: seq<int>, cutoff: int): (r: seq<int>)
    ensures |r| <= |events|
  {
    if events == [] || events[0] >= cutoff then events else Live(events[1..], cutoff)
  }

  function Current(l: Limiter, now: int): seq<int> {
    Live(l.events, now - l.window)
  }

  predicate Allows(l: Limiter, now: int) {
    |Current(l, now)| < l.max
  }

  /** The limiter after a call at `now`. */
  function Called(l: Limiter, now: int): Limiter {
    var live := Current(l, now);
    l.(events := if |live| < l.max then live + [now] else live)
  }

  /** The retry time a refused call is given. */
  function RetryAt(l: Limiter, now: int): int
    requires l.max >= 1 && !Allows(l, now)
  {
    var wakeAt := Current(l, now)[0] + l.window;
    if wakeAt < now then now else wakeAt
  }

  class SlidingWindowLimiter {
    const max: nat
    const window: nat
    var events: seq<int>

    ghost function Abs(): Limiter
      reads this
    {
      Limiter(max, window, events)
    }

    constructor (max: nat, window: nat)
      ensures Abs() == Limiter(max, window, [])
    {
      this.max, this.window, events := max, window, [];
    }

    /** allow: evict, compact when more than half has expired, admit or refuse. */
    method Allow(now: int) returns (allowed: bool, retryAt: int)
      requires max >= 1
      modifies this`events
      ensures Abs() == Called(old(Abs()), now)
      ensures allowed == Allows(old(Abs()), now)
      ensures !allowed ==> retryAt == RetryAt(old(Abs()), now)
    {
      var cutoff := now - window;
      var i := 0;
      while i < |events| && events[i] < cutoff
        invariant 0 <= i <= |events|
        invariant Live(events[i..], cutoff) == Live(events, cutoff)
      {
        assert events[i..][1..] == events[i + 1..];
        i := i + 1;
      }
      assert events[i..] == Live(events, cutoff);
      if i > 0 {
        if i >= |events| / 2 + 1 {
          events := Compact(events, i);
        } else {
          events := events[i..];
        }
      } else {
        assert events[0..] == events;
      }
      allowed, retryAt := true, 0;
      if |events| >= max {
        retryAt := events[0] + window;
        if retryAt < now {
          retryAt := now;
        }
        allowed := false;
        return;
      }
      events := events + [now];
    }
  }

  /** append(s[:0], s[i:]...): the tail copied down over the front, cut to length. */
  method Compact(s: seq<int>, i: nat) returns (r: seq<int>)
    requires i <= |s|
    ensures r == s[i..]
  {
    var backing := s;
    var n := |s| - i;
    for k := 0 to n
      invariant |backing| == |s| && backing[..k] == s[i..i + k] && backing[i + k..] == s[i + k..]
    {
      assert backing[i + k..][0] == s[i + k..][0];
      ghost var before := backing;
      backing := backing[k := backing[i + k]];
      assert backing[..k + 1] == before[..k] + [s[i + k]];
      assert s[i..i + k + 1] == s[i..i + k] + [s[i + k]];
      if i > 0 {
        assert backing[i + (k + 1)..] == before[i + (k + 1)..] == before[i + k..][1..];
        assert s[i + (k + 1)..] == s[i + k..][1..];
      }
    }
    r := backing[..n];
  }

  // ---------------------------------------------------------------------------
  // Runs of calls at nondecreasing times
  // ---------------------------------------------------------------------------

  predicate Sorted(ts: seq<int>) {
    forall i, j :: 0 <= i < j < |ts| ==> ts[i] <= ts[j]
  }

  function After(l: Limiter, calls: seq<int>): Limiter {
    if calls == [] then l else Called(After(l, calls[..|calls| - 1]), calls[|calls| - 1])
  }

  /** The times of the calls that were let through. */
  function Admitted(l: Limiter, calls: seq<int>): seq<int> {
    if calls == [] then []
    else
      var front, now := calls[..|calls| - 1], calls[|calls| - 1];
      Admitted(l, front) + (if Allows(After(l, front), now) then [now] else [])
  }

  lemma {:induction false} LiveSuffix(events: seq<int>, cutoff: int) returns (k: nat)
    ensures k <= |events| && Live(events, cutoff) == events[k..]
    ensures forall j :: 0 <= j < k ==> events[j] < cutoff
    ensures k < |events| ==> events[k] >= cutoff
  {
    if events == [] || events[0] >= cutoff {
      k := 0;
    } else {
      var j := LiveSuffix(events[1..], cutoff);
      k := j + 1;
    }
  }

  /** What is kept: a suffix of the admitted calls; what was dropped is out of the window. */
  ghost predicate Tracks(l: Limiter, admitted: seq<int>, now: int, k: nat) {
    k <= |admitted| && l.events == admitted[k..] && |l.events| <= l.max &&
    Sorted(admitted) && (forall i :: 0 <= i < |admitted| ==> admitted[i] <= now) &&
    (forall i :: 0 <= i < k ==> admitted[i] < now - l.window) &&
    Spaced(admitted, l.max, l.window)
  }

  /** Any max + 1 consecutive admissions span more than the window. */
  ghost predicate Spaced(admitted: seq<int>, max: nat, window: nat) {
    forall i, j :: 0 <= i && i + max <= j < |admitted| ==> admitted[i] + window < admitted[j]
  }

  lemma SortedAppend(a: seq<int>, now: int)
    requires Sorted(a) && forall i :: 0 <= i < |a| ==> a[i] <= now
    ensures Sorted(a + [now])
  {
  }

  lemma SpacedAppend(a: seq<int>, max: nat, window: nat, now: int, k: nat)
    requires Spaced(a, max, window) && k <= |a| < k + max
    requires forall i :: 0 <= i < k ==> a[i] < now - window
    ensures Spaced(a + [now], max, window)
  {
  }

  lemma EvictKeepsTrack(l: Limiter, admitted: seq<int>, before: int, k: nat, now: int) returns (k': nat)
    requires before <= now && Tracks(l, admitted, before, k)
    ensures Tracks(l.(events := Current(l, now)), admitted, now, k')
  {
    hide Sorted, Spaced;
    var d := LiveSuffix(l.events, now - l.window);
    k' := k + d;
    hide Live;
    assert Current(l, now) == admitted[k'..];
    forall i | 0 <= i < k' ensures admitted[i] < now - l.window {
      if i >= k {
        assert admitted[i] == l.events[i - k];
      }
    }
  }

  lemma CallKeepsTrack(l: Limiter, admitted: seq<int>, before: int, k: nat, now: int) returns (k': nat)
    requires before <= now && Tracks(l, admitted, before, k)
    ensures Tracks(Called(l, now), admitted + (if Allows(l, now) then [now] else []), now, k')
  {
    hide Sorted, Spaced, Live;
    k' := EvictKeepsTrack(l, admitted, before, k, now);
    if Allows(l, now) {
      SortedAppend(admitted, now);
      SpacedAppend(admitted, l.max, l.window, now, k');
      assert (admitted + [now])[k'..] == Current(l, now) + [now];
    } else {
      assert admitted + [] == admitted;
    }
  }

  lemma {:induction false} RunTracks(max: nat, window: nat, calls: seq<int>, now: int) returns (k: nat)
    requires max >= 1 && Sorted(calls) && (forall i :: 0 <= i < |calls| ==> calls[i] <= now)
    ensures var l := Limiter(max, window, []);
            After(l, calls).max == max && After(l, calls).window == window &&
            Tracks(After(l, calls), Admitted(l, calls), now, k)
  {
    var l := Limiter(max, window, []);
    if calls == [] {
      k := 0;
    } else {
      var front, t := calls[..|calls| - 1], calls[|calls| - 1];
      var j := RunTracks(max, window, front, t);
      k := CallKeepsTrack(After(l, front), Admitted(l, front), t, j, t);
    }
  }

  /** The limit: for calls at nondecreasing times, no closed window of the configured
      length holds more than max admitted calls. */
  lemma WindowBound(max: nat, window: nat, calls: seq<int>, i: nat, j: nat)
    requires max >= 1 && Sorted(calls)
    requires i <= j < |Admitted(Limiter(max, window, []), calls)|
    requires var a := Admitted(Limiter(max, window, []), calls); a[j] <= a[i] + window
    ensures j - i + 1 <= max
  {
    var now := if calls == [] then 0 else calls[|calls| - 1];
    var k := RunTracks(max, window, calls, now);
  }

  // ---------------------------------------------------------------------------
  // The retry time
  // ---------------------------------------------------------------------------

  /** A limiter as a run leaves it at time now. */
  ghost predicate Consistent(l: Limiter, now: int) {
    l.max >= 1 && |l.events| <= l.max && Sorted(l.events) &&
    forall i :: 0 <= i < |l.events| ==> l.events[i] <= now
  }

  lemma ConsistentAfterRun(max: nat, window: nat, calls: seq<int>, now: int)
    requires max >= 1 && Sorted(calls) && forall i :: 0 <= i < |calls| ==> calls[i] <= now
    ensures Consistent(After(Limiter(max, window, []), calls), now)
  {
    hide After, Admitted, Tracks;
    var k := RunTracks(max, window, calls, now);
    var l := Limiter(max, window, []);
    TrackedIsConsistent(After(l, calls), Admitted(l, calls), now, k);
  }

  lemma TrackedIsConsistent(l: Limiter, admitted: seq<int>, now: int, k: nat)
    requires l.max >= 1 && Tracks(l, admitted, now, k)
    ensures Consistent(l, now)
  {
    assert forall i :: 0 <= i < |l.events| ==> l.events[i] == admitted[k + i];
  }

  /** The retry time is tight, and one tick early: it is never before now (the clamp
      is dead code), every call up to and including it is refused, and the first call
      after it is admitted. */
  lemma RetryIsTight(l: Limiter, now: int, t: int)
    requires Consistent(l, now) && !Allows(l, now)
    ensures RetryAt(l, now) == Current(l, now)[0] + l.window >= now
    ensures now <= t <= RetryAt(l, now) ==> !Allows(Called(l, now), t)
    ensures t > RetryAt(l, now) ==> Allows(Called(l, now), t)
  {
    var d := LiveSuffix(l.events, now - l.window);
    var live := Current(l, now);
    assert live == l.events[d..] && d == 0;
    var e := LiveSuffix(live, t - l.window);
    if t > RetryAt(l, now) {
      assert e > 0;
    }
  }

  // ---------------------------------------------------------------------------
  // Several calls at one instant
  // ---------------------------------------------------------------------------

  /** How many calls at `now` would be let through one after another. */
  function Tokens(l: Limiter, now: int): nat {
    var n := |Current(l, now)|;
    if n < l.max then l.max - n else 0
  }

  /** The limiter after n calls at `now`. */
  function CalledTimes(l: Limiter, now: int, n: nat): Limiter {
    if n == 0 then l else Called(CalledTimes(l, now, n - 1), now)
  }

  lemma {:induction false} LiveAppend(events: seq<int>, cutoff: int, now: int)
    requires now >= cutoff
    ensures Live(events + [now], cutoff) == Live(events, cutoff) + [now]
  {
    if events == [] {
      assert events + [now] == [now];
    } else if events[0] < cutoff {
      assert (events + [now])[1..] == events[1..] + [now];
      LiveAppend(events[1..], cutoff, now);
    }
  }

  lemma {:induction false} LiveTwice(events: seq<int>, cutoff: int)
    ensures Live(Live(events, cutoff), cutoff) == Live(events, cutoff)
  {
    if events != [] && events[0] < cutoff {
      LiveTwice(events[1..], cutoff);
    }
  }

  /** One call takes one token, if there is one, and none otherwise. */
  lemma CallTakesToken(l: Limiter, now: int)
    ensures Allows(l, now) <==> Tokens(l, now) > 0
    ensures Tokens(Called(l, now), now) == if Tokens(l, now) > 0 then Tokens(l, now) - 1 else 0
  {
    var cutoff := now - l.window;
    var live := Live(l.events, cutoff);
    LiveTwice(l.events, cutoff);
    LiveAppend(live, cutoff, now);
  }

  lemma {:induction false} CallsTakeTokens(l: Limiter, now: int, n: nat)
    ensures Tokens(CalledTimes(l, now, n), now) == if n <= Tokens(l, now) then Tokens(l, now) - n else 0
    ensures CalledTimes(l, now, n).max == l.max && CalledTimes(l, now, n).window == l.window
  {
    if n > 0 {
      CallsTakeTokens(l, now, n - 1);
      CallTakesToken(CalledTimes(l, now, n - 1), now);
    }
  }
}
