/** The sliding window that decides when repeated refresh failures stop the cacher. */
module FailureWindow {
  import opened GoText
  import opened Wormhole

  const WINDOW: int := 3600 * SECOND

  /** One tick of the refresh timer: when it fired, and whether publishing failed. */
  datatype Tick = Tick(time: int, failed: bool)

  predicate Monotone(times: seq<int>) {
    forall i, j :: 0 <= i < j < |times| ==> times[i] <= times[j]
  }

  predicate MonotoneClock(ticks: seq<Tick>) {
    forall i, j :: 0 <= i < j < |ticks| ==> ticks[i].time <= ticks[j].time
  }

  /** The times of the failing ones among the first n ticks, in order. */
  function Failures(ticks: seq<Tick>, n: nat): seq<int>
    requires n <= |ticks|
  {
    if n == 0 then []
    else if ticks[n - 1].failed then Failures(ticks, n - 1) + [ticks[n - 1].time]
    else Failures(ticks, n - 1)
  }

  /** The times at or after the cutoff, in order. */
  function Recent(times: seq<int>, cutoff: int): seq<int> {
    if times == [] then []
    else
      var n := |times| - 1;
      Recent(times[..n], cutoff) + if times[n] >= cutoff then [times[n]] else []
  }

  /** All failures of the run up to tick i that lie within the hour before it, that hour included. */
  function LastHour(ticks: seq<Tick>, i: nat): seq<int>
    requires i < |ticks|
  {
    Recent(Failures(ticks, i + 1), ticks[i].time - WINDOW)
  }

  /** The run must stop at tick i. */
  predicate Trips(ticks: seq<Tick>, i: nat, maxFailures: int)
    requires i < |ticks|
  {
    ticks[i].failed && |LastHour(ticks, i)| >= maxFailures
  }

  /** The failing ticks among the first n at or after a time. */
  function FailingSince(ticks: seq<Tick>, n: nat, cutoff: int): set<nat>
    requires n <= |ticks|
  {
    set j: nat | j < n && ticks[j].failed && ticks[j].time >= cutoff
  }

  lemma {:induction false} RecentCount(ticks: seq<Tick>, n: nat, cutoff: int)
    requires n <= |ticks|
    ensures |Recent(Failures(ticks, n), cutoff)| == |FailingSince(ticks, n, cutoff)|
  {
    if n > 0 {
      RecentCount(ticks, n - 1, cutoff);
      var before := FailingSince(ticks, n - 1, cutoff);
      if ticks[n - 1].failed {
        RecentConcat(Failures(ticks, n - 1), [ticks[n - 1].time], cutoff);
        assert [ticks[n - 1].time][..0] == [];
      }
      assert FailingSince(ticks, n, cutoff)
          == if ticks[n - 1].failed && ticks[n - 1].time >= cutoff then before + {n - 1} else before;
    }
  }

  /** A run trips where a tick fails and the failing ticks of the last hour reach the maximum. */
  lemma {:induction false} TripsMeaning(ticks: seq<Tick>, i: nat, maxFailures: int)
    requires i < |ticks|
    ensures Trips(ticks, i, maxFailures) <==>
              ticks[i].failed
              && |set j: nat | j <= i && ticks[j].failed && ticks[j].time >= ticks[i].time - 3_600_000_000_000| >= maxFailures
  {
    RecentCount(ticks, i + 1, ticks[i].time - WINDOW);
    assert FailingSince(ticks, i + 1, ticks[i].time - WINDOW)
        == set j: nat | j <= i && ticks[j].failed && ticks[j].time >= ticks[i].time - 3_600_000_000_000;
  }

  lemma {:induction false} RecentNone(times: seq<int>, cutoff: int)
    requires forall i :: 0 <= i < |times| ==> times[i] < cutoff
    ensures Recent(times, cutoff) == []
  {
    if times != [] {
      RecentNone(times[..|times| - 1], cutoff);
    }
  }

  lemma {:induction false} RecentAll(times: seq<int>, cutoff: int)
    requires forall i :: 0 <= i < |times| ==> times[i] >= cutoff
    ensures Recent(times, cutoff) == times
  {
    if times != [] {
      RecentAll(times[..|times| - 1], cutoff);
      assert times == times[..|times| - 1] + [times[|times| - 1]];
    }
  }

  lemma {:induction false} RecentConcat(a: seq<int>, b: seq<int>, cutoff: int)
    ensures Recent(a + b, cutoff) == Recent(a, cutoff) + Recent(b, cutoff)
  {
    if b == [] {
      assert a + b == a;
    } else {
      var n := |b| - 1;
      RecentConcat(a, b[..n], cutoff);
      assert (a + b)[..|a + b| - 1] == a + b[..n];
    }
  }

  /** A window cut earlier loses nothing that a later cut would keep. */
  lemma {:induction false} RecentTwice(times: seq<int>, early: int, late: int)
    requires early <= late
    ensures Recent(Recent(times, early), late) == Recent(times, late)
  {
    if times != [] {
      var n := |times| - 1;
      RecentTwice(times[..n], early, late);
      var last := if times[n] >= early then [times[n]] else [];
      RecentConcat(Recent(times[..n], early), last, late);
      if times[n] >= early {
        assert [times[n]][..0] == [];
      }
    }
  }

  lemma {:induction false} RecentMonotone(times: seq<int>, cutoff: int)
    requires Monotone(times)
    ensures Monotone(Recent(times, cutoff))
    ensures forall x :: x in Recent(times, cutoff) ==> x in times
  {
    if times != [] {
      var n := |times| - 1;
      RecentMonotone(times[..n], cutoff);
      assert forall x :: x in times[..n] ==> x <= times[n];
      AppendMonotone(Recent(times[..n], cutoff), times[n]);
    }
  }

  lemma {:induction false} FailuresMonotone(ticks: seq<Tick>, n: nat)
    requires MonotoneClock(ticks) && n <= |ticks|
    ensures Monotone(Failures(ticks, n))
    ensures forall x :: x in Failures(ticks, n) && n < |ticks| ==> x <= ticks[n].time
  {
    if n > 0 {
      FailuresMonotone(ticks, n - 1);
      AppendMonotone(Failures(ticks, n - 1), ticks[n - 1].time);
    }
  }

  lemma AppendMonotone(times: seq<int>, last: int)
    requires Monotone(times) && forall x :: x in times ==> x <= last
    ensures Monotone(times + [last])
  {
    assert forall i :: 0 <= i < |times| ==> times[i] in times;
  }

  /** The list without its leading entries from before the cutoff. */
  function DropOld(times: seq<int>, cutoff: int): seq<int> {
    if times == [] || times[0] >= cutoff then times else DropOld(times[1..], cutoff)
  }

  lemma {:induction false} DropOldSuffix(times: seq<int>, i: nat, cutoff: int)
    requires i <= |times| && forall j :: 0 <= j < i ==> times[j] < cutoff
    requires i < |times| ==> times[i] >= cutoff
    ensures DropOld(times, cutoff) == times[i..]
  {
    if i > 0 {
      DropOldSuffix(times[1..], i - 1, cutoff);
      assert times[1..][i - 1..] == times[i..];
    }
  }

  /** Of times in order, that leaves exactly the recent ones. */
  lemma {:induction false} DropOldRecent(times: seq<int>, cutoff: int)
    requires Monotone(times)
    ensures DropOld(times, cutoff) == Recent(times, cutoff)
  {
    if times == [] {
    } else if times[0] >= cutoff {
      RecentAll(times, cutoff);
    } else {
      var first, rest := times[0], times[1..];
      DropOldRecent(rest, cutoff);
      assert times == [first] + rest;
      RecentConcat([first], rest, cutoff);
      RecentNone([first], cutoff);
    }
  }

  /** Appends the present failure and drops the leading entries before the window. */
  method AppendFailure(failures: seq<int>, now: int) returns (kept: seq<int>)
    ensures kept == DropOld(failures + [now], now - WINDOW)
  {
    var all := failures + [now];
    var cutoff := now - WINDOW;
    var i := 0;
    while i < |all| && all[i] < cutoff
      invariant 0 <= i <= |all|
      invariant forall j :: 0 <= j < i ==> all[j] < cutoff
    {
      i := i + 1;
    }
    kept := all[i..];
    DropOldSuffix(all, i, cutoff);
  }

  lemma WindowMonotone(ticks: seq<Tick>, n: nat, cutoff: int)
    requires MonotoneClock(ticks) && n < |ticks|
    ensures Monotone(Recent(Failures(ticks, n), cutoff) + [ticks[n].time])
  {
    FailuresMonotone(ticks, n);
    RecentMonotone(Failures(ticks, n), cutoff);
    AppendMonotone(Recent(Failures(ticks, n), cutoff), ticks[n].time);
  }

  /** Cutting the kept window at a failing tick leaves the last hour of the whole run. */
  lemma WindowStep(run: seq<int>, now: int, cutoff: int)
    requires cutoff <= now - WINDOW
    ensures Recent(Recent(run, cutoff) + [now], now - WINDOW) == Recent(run + [now], now - WINDOW)
  {
    RecentConcat(Recent(run, cutoff), [now], now - WINDOW);
    RecentTwice(run, cutoff, now - WINDOW);
    RecentConcat(run, [now], now - WINDOW);
  }

  /** The kept entries after n ticks: all failures so far that are not before the cutoff. */
  predicate Keeps(ticks: seq<Tick>, n: nat, failures: seq<int>, cutoff: int)
    requires n <= |ticks|
  {
    && failures == Recent(Failures(ticks, n), cutoff)
    && (n < |ticks| ==> cutoff <= ticks[n].time - WINDOW)
  }

  lemma KeepsStep(ticks: seq<Tick>, n: nat, failures: seq<int>, cutoff: int)
    requires MonotoneClock(ticks) && n < |ticks| && Keeps(ticks, n, failures, cutoff)
    ensures !ticks[n].failed ==> Keeps(ticks, n + 1, failures, cutoff)
    ensures ticks[n].failed ==>
              && DropOld(failures + [ticks[n].time], ticks[n].time - WINDOW) == LastHour(ticks, n)
              && Keeps(ticks, n + 1, LastHour(ticks, n), ticks[n].time - WINDOW)
  {
    WindowMonotone(ticks, n, cutoff);
    DropOldRecent(failures + [ticks[n].time], ticks[n].time - WINDOW);
    WindowStep(Failures(ticks, n), ticks[n].time, cutoff);
  }

  predicate NeverTrips(ticks: seq<Tick>, n: nat, maxFailures: int)
    requires n <= |ticks|
  {
    forall i :: 0 <= i < n ==> !Trips(ticks, i, maxFailures)
  }

  /**
   * The refresh loop over the ticks seen before its context ends: it returns an error at
   * exactly the first failing tick whose last hour holds the maximum number of failures.
   */
  method ManageRoutes(ticks: seq<Tick>, maxFailures: int) returns (stopped: Option<nat>)
    requires MonotoneClock(ticks)
    ensures stopped.Some? ==> stopped.value < |ticks| && Trips(ticks, stopped.value, maxFailures)
    ensures NeverTrips(ticks, if stopped.Some? then stopped.value else |ticks|, maxFailures)
  {
    var failures: seq<int> := [];
    ghost var cutoff := if ticks == [] then 0 else ticks[0].time - WINDOW;
    for n := 0 to |ticks|
      invariant Keeps(ticks, n, failures, cutoff)
      invariant NeverTrips(ticks, n, maxFailures)
    {
      KeepsStep(ticks, n, failures, cutoff);
      if ticks[n].failed {
        failures := AppendFailure(failures, ticks[n].time);
        cutoff := ticks[n].time - WINDOW;
        assert failures == LastHour(ticks, n);
        if |failures| >= maxFailures {
          return Some(n);
        }
      }
      assert !Trips(ticks, n, maxFailures);
    }
    return None;
  }
}
