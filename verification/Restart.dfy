// The Fleet's restart policy: pruned exit times threaded from exit to exit, a circuit breaker and a backoff.
module Restart {
  datatype Policy = Policy(initialBackoffMs: nat, maxBackoffMs: nat, maxRestarts: nat, windowMs: nat,
      stableAfterMs: nat)
  datatype Exit = Exit(now: int, runtimeMs: int)
  datatype Decision =
    | Restarting(timestamps: seq<int>, backoffMs: nat, nextStartAt: int)
    | Trip(timestamps: seq<int>)

  function Since(times: seq<int>, low: int): (r: seq<int>)
    ensures forall t :: t in r ==> t in times && t >= low
  {
    if times == [] then []
    else Since(times[..|times| - 1], low) + (if times[|times| - 1] >= low then [times[|times| - 1]] else [])
  }

  function Pow2(n: nat): nat {
    if n == 0 then 1 else 2 * Pow2(n - 1)
  }

  function Min(a: nat, b: nat): nat {
    if a <= b then a else b
  }

  /** The wait before the k-th start of a window, k from 1. */
  function Backoff(p: Policy, k: nat): nat {
    Min(p.maxBackoffMs, p.initialBackoffMs * Pow2(if k > 0 then k - 1 else 0))
  }

  function DecideRestart(p: Policy, timestamps: seq<int>, e: Exit): Decision {
    var history := if e.runtimeMs >= p.stableAfterMs then [] else Since(timestamps, e.now - p.windowMs);
    var kept := history + [e.now];
    if |kept| > p.maxRestarts then Trip(kept) else Restarting(kept, Backoff(p, |kept|), e.now + Backoff(p, |kept|))
  }

  // ----- a run of exits -----

  function Threaded(p: Policy, exits: seq<Exit>): seq<int> {
    if exits == [] then []
    else DecideRestart(p, Threaded(p, exits[..|exits| - 1]), exits[|exits| - 1]).timestamps
  }

  function DecisionAt(p: Policy, exits: seq<Exit>, k: nat): Decision
    requires k < |exits|
  {
    DecideRestart(p, Threaded(p, exits[..k]), exits[k])
  }

  /** The times of all exits since the last run that counted as stable, itself included. */
  function SinceStable(p: Policy, exits: seq<Exit>): seq<int> {
    if exits == [] then []
    else
      var e := exits[|exits| - 1];
      (if e.runtimeMs >= p.stableAfterMs then [] else SinceStable(p, exits[..|exits| - 1])) + [e.now]
  }

  predicate Nondecreasing(exits: seq<Exit>) {
    forall i, j :: 0 <= i < j < |exits| ==> exits[i].now <= exits[j].now
  }

  lemma {:induction false} SinceTwice(times: seq<int>, a: int, b: int)
    requires a <= b
    ensures Since(Since(times, a), b) == Since(times, b)
  {
    if times != [] {
      var n := |times| - 1;
      SinceTwice(times[..n], a, b);
      var front := Since(times[..n], a);
      if times[n] >= a {
        assert Since(times, a)[..|front|] == front;
      } else {
        assert Since(times, a) == front;
      }
    }
  }

  lemma SinceAppend(times: seq<int>, t: int, low: int)
    requires t >= low
    ensures Since(times + [t], low) == Since(times, low) + [t]
  {
    assert (times + [t])[..|times|] == times;
  }

  lemma ThreadedStep(p: Policy, front: seq<Exit>, e: Exit)
    ensures Threaded(p, front + [e]) ==
      (if e.runtimeMs >= p.stableAfterMs then [] else Since(Threaded(p, front), e.now - p.windowMs)) + [e.now]
    ensures SinceStable(p, front + [e]) ==
      (if e.runtimeMs >= p.stableAfterMs then [] else SinceStable(p, front)) + [e.now]
  {
    assert (front + [e])[..|front|] == front;
    hide Backoff, Since;
  }

  lemma EmptyRun(p: Policy, low: int, high: int)
    ensures Since([], low) == []
      && Threaded(p, []) == []
      && SinceStable(p, []) == []
      && Restarts(p, []) == []
      && Within([], low, high) == []
  {
  }

  /** Pruning at every exit loses nothing: the threaded timestamps are the whole history since the last stable
    * run, cut to the window that ends at the last exit. */
  lemma {:induction false} ThreadedIsHistory(p: Policy, exits: seq<Exit>)
    requires Nondecreasing(exits) && exits != []
    ensures Threaded(p, exits) == Since(SinceStable(p, exits), exits[|exits| - 1].now - p.windowMs)
    decreases |exits|
  {
    hide Since, Threaded, SinceStable, DecideRestart, Backoff;
    var n := |exits| - 1;
    var e, front := exits[n], exits[..n];
    var low := e.now - p.windowMs;
    assert exits == front + [e];
    ThreadedStep(p, front, e);
    EmptyRun(p, low, low);
    if e.runtimeMs >= p.stableAfterMs || front == [] {
      SinceAppend([], e.now, low);
    } else {
      ThreadedIsHistory(p, front);
      SinceTwice(SinceStable(p, front), front[n - 1].now - p.windowMs, low);
      SinceAppend(SinceStable(p, front), e.now, low);
    }
  }

  // ----- at most maxRestarts in any window -----

  predicate NeverStable(p: Policy, exits: seq<Exit>) {
    forall i :: 0 <= i < |exits| ==> exits[i].runtimeMs < p.stableAfterMs
  }

  /** The times at which the project was restarted. */
  function Restarts(p: Policy, exits: seq<Exit>): seq<int> {
    if exits == [] then []
    else
      var n := |exits| - 1;
      Restarts(p, exits[..n]) + (if DecisionAt(p, exits, n).Restarting? then [exits[n].now] else [])
  }

  function Within(times: seq<int>, low: int, high: int): seq<int> {
    if times == [] then []
    else Within(times[..|times| - 1], low, high) + (if low <= times[|times| - 1] <= high then [times[|times| - 1]]
        else [])
  }

  lemma Fronts(p: Policy, exits: seq<Exit>)
    requires NeverStable(p, exits) && Nondecreasing(exits) && exits != []
    ensures NeverStable(p, exits[..|exits| - 1])
      && Nondecreasing(exits[..|exits| - 1])
      && exits[|exits| - 1].runtimeMs < p.stableAfterMs
    ensures exits == exits[..|exits| - 1] + [exits[|exits| - 1]]
  {
  }

  lemma RestartsStep(p: Policy, front: seq<Exit>, e: Exit)
    ensures Restarts(p, front + [e]) ==
      Restarts(p, front) + (if |Threaded(p, front + [e])| <= p.maxRestarts then [e.now] else [])
  {
    assert (front + [e])[..|front|] == front;
    hide Backoff, Since;
  }

  lemma {:induction false} FewerThanExits(p: Policy, exits: seq<Exit>, low: int, high: int)
    requires NeverStable(p, exits) && Nondecreasing(exits)
    ensures |Within(Restarts(p, exits), low, high)| <= |Since(SinceStable(p, exits), low)|
    decreases |exits|
  {
    hide Since, Threaded, SinceStable, Restarts, Within, DecideRestart, Backoff;
    if exits == [] {
      EmptyRun(p, low, high);
    } else {
      var n := |exits| - 1;
      var e, front := exits[n], exits[..n];
      Fronts(p, exits);
      hide NeverStable, Nondecreasing;
      FewerThanExits(p, front, low, high);
      ThreadedStep(p, front, e);
      RestartsStep(p, front, e);
      assert Restarts(p, front) + [] == Restarts(p, front);
      WithinAppend(Restarts(p, front), e.now, low, high);
      SinceMore(SinceStable(p, front), e.now, low);
    }
  }

  lemma WithinAppend(times: seq<int>, t: int, low: int, high: int)
    ensures Within(times + [t], low, high) == Within(times, low, high) + (if low <= t <= high then [t] else [])
  {
    assert (times + [t])[..|times|] == times;
  }

  lemma SinceMore(times: seq<int>, t: int, low: int)
    ensures |Since(times + [t], low)| == |Since(times, low)| + (if t >= low then 1 else 0)
  {
    assert (times + [t])[..|times|] == times;
  }

  lemma {:induction false} SinceShrinks(times: seq<int>, a: int, b: int)
    requires a <= b
    ensures |Since(times, b)| <= |Since(times, a)|
  {
    if times != [] { SinceShrinks(times[..|times| - 1], a, b); }
  }

  /** Without a stable run, no stretch of windowMs holds more than maxRestarts restarts. */
  lemma {:induction false} RestartsAreRare(p: Policy, exits: seq<Exit>, low: int)
    requires NeverStable(p, exits) && Nondecreasing(exits)
    ensures |Within(Restarts(p, exits), low, low + p.windowMs)| <= p.maxRestarts
    decreases |exits|
  {
    hide Since, Threaded, SinceStable, Restarts, Within, DecideRestart, Backoff;
    if exits == [] {
      EmptyRun(p, low, low + p.windowMs);
    } else {
      var n := |exits| - 1;
      var e, front := exits[n], exits[..n];
      Fronts(p, exits);
      hide NeverStable, Nondecreasing;
      RestartsAreRare(p, front, low);
      RestartsStep(p, front, e);
      assert Restarts(p, front) + [] == Restarts(p, front);
      WithinAppend(Restarts(p, front), e.now, low, low + p.windowMs);
      FewerThanExits(p, exits, low, low + p.windowMs);
      ThreadedIsHistory(p, exits);
      if low >= e.now - p.windowMs { SinceShrinks(SinceStable(p, exits), e.now - p.windowMs, low); }
    }
  }

  // ----- backoff -----

  /** Each further start of a window waits twice as long as the one before, up to the cap, which is never exceeded. */
  lemma BackoffDoubles(p: Policy, k: nat)
    requires k >= 1 && p.initialBackoffMs <= p.maxBackoffMs
    ensures Backoff(p, 1) == p.initialBackoffMs
    ensures Backoff(p, k + 1) == Min(p.maxBackoffMs, 2 * Backoff(p, k))
    ensures p.initialBackoffMs <= Backoff(p, k) <= Backoff(p, k + 1) <= p.maxBackoffMs
  {
    var before := p.initialBackoffMs * Pow2(k - 1);
    assert Pow2(k) == 2 * Pow2(k - 1);
    assert p.initialBackoffMs * Pow2(k) == 2 * before;
    PowPositive(k - 1);
    assert before >= p.initialBackoffMs;
  }

  lemma {:induction false} PowPositive(n: nat)
    ensures Pow2(n) >= 1
  {
    if n > 0 { PowPositive(n - 1); }
  }

  /** A restart waits exactly the clipped power of two of its place in the window. */
  lemma RestartWaits(p: Policy, exits: seq<Exit>, k: nat)
    requires k < |exits| && Nondecreasing(exits) && DecisionAt(p, exits, k).Restarting?
    ensures var d := DecisionAt(p, exits, k);
      var place := |Since(SinceStable(p, exits[..k + 1]), exits[k].now - p.windowMs)|;
      1 <= place <= p.maxRestarts && d.backoffMs == Backoff(p, place) && d.nextStartAt == exits[k].now + d.backoffMs
  {
    hide Backoff, Since, Threaded, SinceStable;
    assert exits[..k + 1] == exits[..k] + [exits[k]];
    ThreadedStep(p, exits[..k], exits[k]);
    ThreadedIsHistory(p, exits[..k + 1]);
  }
}
