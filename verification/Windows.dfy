/** Sliding windows kept by popping old entries off the front: agent/src/modules/mempressure.rs (OOM
    storms) and pcie_aer.rs (corrected errors). */
module Windows {
  import opened Basics

  ghost predicate NonDecreasing(ts: seq<nat>) {
    forall i, j :: 0 <= i <= j < |ts| ==> ts[i] <= ts[j]
  }

  ghost predicate AtMost(ts: seq<nat>, bound: nat) {
    forall i :: 0 <= i < |ts| ==> ts[i] <= bound
  }

  lemma NonDecreasingSnoc(ts: seq<nat>, t: nat)
    requires NonDecreasing(ts) && AtMost(ts, t)
    ensures NonDecreasing(ts + [t]) && AtMost(ts + [t], t)
  {
  }

  /** The entries of a list that are at most w old, in order. */
  function Recent(ts: seq<nat>, now: nat, w: nat): seq<nat> {
    if ts == [] then []
    else
      var last, before := ts[|ts| - 1], Recent(ts[..|ts| - 1], now, w);
      if Since(now, last) <= w then before + [last] else before
  }

  lemma {:induction false} RecentSnoc(ts: seq<nat>, t: nat, now: nat, w: nat)
    ensures Recent(ts + [t], now, w) == if Since(now, t) <= w then Recent(ts, now, w) + [t] else Recent(ts, now, w)
  {
    assert (ts + [t])[..|ts|] == ts;
  }

  lemma {:induction false} RecentAll(ts: seq<nat>, now: nat, w: nat)
    requires forall t <- ts :: Since(now, t) <= w
    ensures Recent(ts, now, w) == ts
  {
    if ts != [] {
      assert ts == ts[..|ts| - 1] + [ts[|ts| - 1]];
      RecentAll(ts[..|ts| - 1], now, w);
    }
  }

  lemma {:induction false} RecentNone(ts: seq<nat>, now: nat, w: nat)
    requires forall t <- ts :: Since(now, t) > w
    ensures Recent(ts, now, w) == []
  {
    if ts != [] { RecentNone(ts[..|ts| - 1], now, w); }
  }

  lemma {:induction false} RecentConcat(a: seq<nat>, b: seq<nat>, now: nat, w: nat)
    ensures Recent(a + b, now, w) == Recent(a, now, w) + Recent(b, now, w)
  {
    if b == [] {
      assert a + b == a;
    } else {
      assert (a + b)[..|a + b| - 1] == a + b[..|b| - 1];
      RecentConcat(a, b[..|b| - 1], now, w);
    }
  }

  /** What was dropped for being old would be dropped later too. */
  lemma {:induction false} RecentLater(ts: seq<nat>, now: nat, later: nat, w: nat)
    requires now <= later
    ensures Recent(Recent(ts, now, w), later, w) == Recent(ts, later, w)
  {
    if ts != [] {
      var most, last := ts[..|ts| - 1], ts[|ts| - 1];
      RecentLater(most, now, later, w);
      if Since(now, last) <= w { RecentSnoc(Recent(most, now, w), last, later, w); }
    }
  }

  lemma {:induction false} RecentWithin(ts: seq<nat>, now: nat, w: nat, bound: nat)
    requires NonDecreasing(ts) && AtMost(ts, bound)
    ensures NonDecreasing(Recent(ts, now, w)) && AtMost(Recent(ts, now, w), bound)
  {
    if ts != [] {
      var before, last := ts[..|ts| - 1], ts[|ts| - 1];
      RecentWithin(before, now, w, last);
      NonDecreasingSnoc(Recent(before, now, w), last);
    }
  }

  /** Pop entries off the front while they are too old: on a time-ordered list that drops all of them. */
  method PopOld(win: seq<nat>, now: nat, w: nat) returns (r: seq<nat>)
    requires NonDecreasing(win)
    ensures r == Recent(win, now, w)
  {
    r := win;
    ghost var n := 0;
    while r != [] && Since(now, r[0]) > w
      invariant n <= |win| && r == win[n..]
      invariant forall i :: 0 <= i < n ==> Since(now, win[i]) > w
    {
      r := r[1..];
      n := n + 1;
    }
    assert win == win[..n] + win[n..];
    RecentConcat(win[..n], win[n..], now, w);
    RecentNone(win[..n], now, w);
    RecentAll(win[n..], now, w);
  }

  /** A kernel log line: whether it is one that the module records, and when it was handled. */
  datatype Line = Line(recorded: bool, now: nat)

  function Times(lines: seq<Line>): seq<nat> {
    if lines == [] then []
    else
      var last, before := lines[|lines| - 1], Times(lines[..|lines| - 1]);
      if last.recorded then before + [last.now] else before
  }

  ghost predicate InOrder(lines: seq<Line>) {
    forall i, j :: 0 <= i <= j < |lines| ==> lines[i].now <= lines[j].now
  }

  /** All recorded lines so far in the closed window that ends with the newest one. */
  function InWindow(lines: seq<Line>, i: nat, w: nat): seq<nat>
    requires i < |lines|
  {
    Recent(Times(lines[..i + 1]), lines[i].now, w)
  }

  lemma {:induction false} TimesBounded(lines: seq<Line>, bound: nat)
    requires InOrder(lines) && (lines != [] ==> lines[|lines| - 1].now <= bound)
    ensures NonDecreasing(Times(lines)) && AtMost(Times(lines), bound)
  {
    if lines != [] {
      var before, last := lines[..|lines| - 1], lines[|lines| - 1];
      TimesBounded(before, last.now);
      NonDecreasingSnoc(Times(before), last.now);
    }
  }

  /** The deque after the i-th line: everything recorded, less what was old when the last line was recorded. */
  lemma {:induction false} WindowStep(lines: seq<Line>, i: nat, w: nat, deque: seq<nat>, at: nat)
    requires i < |lines| && InOrder(lines) && at <= lines[i].now && deque == Recent(Times(lines[..i]), at, w)
    ensures Times(lines[..i + 1]) == if lines[i].recorded then Times(lines[..i]) + [lines[i].now] else Times(lines[..i])
    ensures NonDecreasing(deque + [lines[i].now])
    ensures lines[i].recorded ==> Recent(deque + [lines[i].now], lines[i].now, w) == InWindow(lines, i, w)
  {
    var now := lines[i].now;
    var past := Times(lines[..i]);
    assert lines[..i + 1][..i] == lines[..i];
    TimesBounded(lines[..i], now);
    RecentWithin(past, at, w, now);
    NonDecreasingSnoc(deque, now);
    RecentLater(past, at, now, w);
    RecentSnoc(deque, now, now, w);
    RecentSnoc(past, now, now, w);
  }

  /** Push the time of a recorded line and pop what has become old. */
  method Record(lines: seq<Line>, i: nat, deque: seq<nat>, w: nat, ghost at: nat) returns (r: seq<nat>)
    requires i < |lines| && InOrder(lines) && lines[i].recorded
    requires at <= lines[i].now && deque == Recent(Times(lines[..i]), at, w)
    ensures r == InWindow(lines, i, w)
  {
    WindowStep(lines, i, w, deque, at);
    r := PopOld(deque + [lines[i].now], lines[i].now, w);
  }

  lemma Skip(lines: seq<Line>, i: nat)
    requires i < |lines| && !lines[i].recorded
    ensures Times(lines[..i + 1]) == Times(lines[..i])
  {
    assert lines[..i + 1][..i] == lines[..i];
  }

  const U32 := 0x1_0000_0000

  /** `len() as u32 >= threshold` */
  predicate Reaches32(n: nat, threshold: nat) { n % U32 >= threshold }

  /** The recorded among the first n lines that are at most w old. */
  ghost function Within(lines: seq<Line>, n: nat, now: nat, w: nat): set<nat>
    requires n <= |lines|
  {
    set j | 0 <= j < n && lines[j].recorded && now - lines[j].now <= w
  }

  lemma {:induction false} RecentCounts(lines: seq<Line>, n: nat, now: nat, w: nat)
    requires n <= |lines|
    ensures |Recent(Times(lines[..n]), now, w)| == |Within(lines, n, now, w)|
  {
    if n > 0 {
      RecentCounts(lines, n - 1, now, w);
      assert lines[..n][..n - 1] == lines[..n - 1];
      var before, last := Within(lines, n - 1, now, w), lines[n - 1];
      if last.recorded { RecentSnoc(Times(lines[..n - 1]), last.now, now, w); }
      assert Within(lines, n, now, w)
          == if last.recorded && now - last.now <= w then before + {n - 1} else before;
    }
  }

  /** A line is recorded, and with it the recorded lines of the closed window reach the count as u32. */
  ghost predicate StormAt(lines: seq<Line>, i: nat, window: nat, count: nat)
    requires i < |lines|
  {
    lines[i].recorded && |Within(lines, i + 1, lines[i].now, window)| % 0x1_0000_0000 >= count
  }

  /** ... those of the last 60 seconds reach the rate. */
  ghost predicate HighAt(lines: seq<Line>, i: nat, perMinute: nat)
    requires i < |lines|
  {
    lines[i].recorded && |Within(lines, i + 1, lines[i].now, 60_000_000_000)| >= perMinute
  }

  /** The OOM storm window: oom_storm is observed on a kill line exactly when the kills in the closed
      window reach the threshold (as u32). */
  method OomLoop(lines: seq<Line>, window: nat, count: nat) returns (storms: seq<bool>)
    requires InOrder(lines)
    ensures |storms| == |lines|
    ensures forall i :: 0 <= i < |lines| ==> storms[i] == StormAt(lines, i, window, count)
  {
    storms := [];
    var storm: seq<nat> := [];
    ghost var at: nat := 0;
    for i := 0 to |lines|
      invariant |storms| == i && storm == Recent(Times(lines[..i]), at, window)
      invariant i < |lines| ==> at <= lines[i].now
      invariant forall j :: 0 <= j < i ==> storms[j] == StormAt(lines, j, window, count)
    {
      var fire := false;
      if lines[i].recorded {
        storm := Record(lines, i, storm, window, at);
        RecentCounts(lines, i + 1, lines[i].now, window);
        fire := Reaches32(|storm|, count);
        at := lines[i].now;
      } else {
        Skip(lines, i);
      }
      storms := storms + [fire];
    }
  }

  const MINUTE: nat := 60_000_000_000

  /** The corrected-error window: pops while t0 < now - 60s, and compares lengths as u64. */
  method AerLoop(lines: seq<Line>, perMinute: nat) returns (high: seq<bool>)
    requires InOrder(lines)
    ensures |high| == |lines|
    ensures forall i :: 0 <= i < |lines| ==> high[i] == HighAt(lines, i, perMinute)
  {
    high := [];
    var corr: seq<nat> := [];
    ghost var at: nat := 0;
    for i := 0 to |lines|
      invariant |high| == i && corr == Recent(Times(lines[..i]), at, MINUTE)
      invariant i < |lines| ==> at <= lines[i].now
      invariant forall j :: 0 <= j < i ==> high[j] == HighAt(lines, j, perMinute)
    {
      var fire := false;
      if lines[i].recorded {
        corr := Record(lines, i, corr, MINUTE, at);
        RecentCounts(lines, i + 1, lines[i].now, MINUTE);
        fire := |corr| >= perMinute;
        at := lines[i].now;
      } else {
        Skip(lines, i);
      }
      high := high + [fire];
    }
  }
}
