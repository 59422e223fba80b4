/** Sustained memory pressure: `psi_loop` of agent/src/modules/mempressure.rs. */
module Psi {
  import opened Basics
  import opened Shared
  import opened Tracker

  /** One tick: a failed read, or a value at or above the threshold (with the clock as read when a breach
      is started and again when its age is checked), or one below it. */
  datatype Sample = Failed | High(at: int, check: int, wall: int) | Low(now: int, wall: int)

  /** Clock readings never go back. */
  predicate Ordered(a: Sample, b: Sample) {
    !b.Failed? ==> (a.High? ==> a.check <= First(b)) && (a.Low? ==> a.now <= First(b))
  }

  function First(s: Sample): int
    requires !s.Failed?
  {
    if s.High? then s.at else s.now
  }

  predicate Monotone(samples: seq<Sample>) {
    && (forall i :: 0 <= i < |samples| && samples[i].High? ==> samples[i].at <= samples[i].check)
    && (forall i, j :: 0 <= i < j < |samples| ==> Ordered(samples[i], samples[j]))
  }

  datatype Setting = Setting(b: Builder, sustain: nat)

  /** What one tick does to breach_since, and what it asks of the tracker. */
  function NextBreach(breach: Option<int>, s: Sample): Option<int> {
    match s
    case Failed => breach
    case High(at, _, _) => Some(breach.GetOr(at))
    case Low(_, _) => None
  }

  function AsksOn(p: Setting, breach: Option<int>, s: Sample): seq<Call> {
    match s
    case Failed => []
    case High(at, check, wall) =>
      if Since(check, breach.GetOr(at)) >= p.sustain then [Observe(p.b, check, wall)] else []
    case Low(now, wall) => [ObserveOk(p.b.Fp(), now, wall)]
  }

  function BreachSince(samples: seq<Sample>): Option<int> {
    if samples == [] then None else NextBreach(BreachSince(samples[..|samples| - 1]), Last(samples))
  }

  /** What the last sample of a run makes the loop ask. */
  function Asks(p: Setting, samples: seq<Sample>): seq<Call> {
    if samples == [] then [] else AsksOn(p, BreachSince(samples[..|samples| - 1]), Last(samples))
  }

  function CallsOf(p: Setting, samples: seq<Sample>): seq<Call> {
    if samples == [] then [] else CallsOf(p, samples[..|samples| - 1]) + Asks(p, samples)
  }

  method OnSample(p: Setting, breach: Option<int>, s: Sample, tracker: AlertTracker, sent: seq<Alert>, ghost n: nat)
    returns (breach': Option<int>, sent': seq<Alert>)
    requires tracker.Valid() && n <= |tracker.calls| && sent == OutsFrom(History(tracker.cfg, tracker.calls), n)
    modifies tracker
    ensures tracker.Valid() && tracker.calls == old(tracker.calls) + AsksOn(p, breach, s)
    ensures breach' == NextBreach(breach, s) && sent' == OutsFrom(History(tracker.cfg, tracker.calls), n)
  {
    breach', sent' := breach, sent;
    match s {
      case Failed =>
      case High(at, check, wall) =>
        if breach.None? { breach' := Some(at); }
        if Since(check, breach'.value) >= p.sustain {
          sent' := Ask(tracker, Observe(p.b, check, wall), sent, n);
        }
      case Low(now, wall) =>
        breach' := None;
        sent' := Ask(tracker, ObserveOk(p.b.Fp(), now, wall), sent, n);
    }
  }

  lemma OneMore(p: Setting, samples: seq<Sample>, i: nat)
    requires i < |samples|
    ensures BreachSince(samples[..i + 1]) == NextBreach(BreachSince(samples[..i]), samples[i])
    ensures CallsOf(p, samples[..i + 1]) == CallsOf(p, samples[..i]) + AsksOn(p, BreachSince(samples[..i]), samples[i])
  {
    assert samples[..i + 1][..i] == samples[..i];
  }

  method PsiLoop(p: Setting, samples: seq<Sample>, tracker: AlertTracker) returns (sent: seq<Alert>)
    requires tracker.Valid()
    modifies tracker
    ensures tracker.Valid() && tracker.calls == old(tracker.calls) + CallsOf(p, samples)
    ensures sent == OutsFrom(History(tracker.cfg, tracker.calls), |old(tracker.calls)|)
  {
    sent := [];
    var breach: Option<int> := None;
    ghost var n := |tracker.calls|;
    for i := 0 to |samples|
      invariant tracker.Valid() && breach == BreachSince(samples[..i])
      invariant tracker.calls == old(tracker.calls) + CallsOf(p, samples[..i])
      invariant sent == OutsFrom(History(tracker.cfg, tracker.calls), n)
    {
      OneMore(p, samples, i);
      Regroup(old(tracker.calls), CallsOf(p, samples[..i]), AsksOn(p, breach, samples[i]));
      breach, sent := OnSample(p, breach, samples[i], tracker, sent, n);
    }
    assert samples[..|samples|] == samples;
  }

  /** No successful sample from j on is below the threshold. */
  ghost predicate Unbroken(samples: seq<Sample>, j: nat) {
    forall k :: j <= k < |samples| ==> !samples[k].Low?
  }

  /** An unbroken run of high samples, failed reads apart, begins at j with reading `at`. */
  ghost predicate StartsAt(samples: seq<Sample>, j: nat, at: int)
    requires j < |samples|
  {
    samples[j].High? && samples[j].at == at && Unbroken(samples, j)
  }

  /** breach_since is the first reading of the unbroken run of high samples that reaches the end. */
  lemma {:induction false} BreachStartsRun(samples: seq<Sample>)
    requires Monotone(samples)
    ensures BreachSince(samples).Some? ==>
              exists j :: 0 <= j < |samples| && StartsAt(samples, j, BreachSince(samples).value)
    ensures forall j :: 0 <= j < |samples| && samples[j].High? && Unbroken(samples, j) ==>
              BreachSince(samples).Some? && BreachSince(samples).value <= samples[j].at
  {
    if samples != [] {
      var n := |samples| - 1;
      var before, last := samples[..n], samples[n];
      BreachStartsRun(before);
      if !last.Low? {
        if BreachSince(before).Some? {
          var j :| 0 <= j < |before| && StartsAt(before, j, BreachSince(before).value);
          assert samples[j] == before[j] && Unbroken(samples, j);
          assert StartsAt(samples, j, BreachSince(samples).value);
          assert Ordered(samples[j], samples[n]);
        } else if last.High? {
          assert StartsAt(samples, n, BreachSince(samples).value);
        }
        forall j | 0 <= j < n && samples[j].High? && Unbroken(samples, j)
          ensures BreachSince(samples).Some? && BreachSince(samples).value <= samples[j].at
        {
          assert before[j] == samples[j] && Unbroken(before, j);
        }
      }
    }
  }

  /** The last sample ends an unbroken run of high samples - failed reads apart - whose first reading is at least
      `sustain` old when its age is checked. */
  ghost predicate Sustained(p: Setting, samples: seq<Sample>, check: int) {
    exists j :: 0 <= j < |samples| && samples[j].High? && Unbroken(samples, j)
                && Since(check, samples[j].at) >= p.sustain
  }

  /** What a sample asks of the tracker: psi_high is observed, at the clock reading of the check, exactly on high
      samples that end a sustained breach; it is reported calm on every low one. */
  lemma {:induction false} ObservedAfterSustainedRun(p: Setting, samples: seq<Sample>)
    requires Monotone(samples) && samples != []
    ensures Asks(p, samples) ==
            match Last(samples)
            case Failed => []
            case High(_, check, wall) => if Sustained(p, samples, check) then [Observe(p.b, check, wall)] else []
            case Low(now, wall) => [ObserveOk(p.b.Fp(), now, wall)]
  {
    BreachStartsRun(samples);
    var n := |samples| - 1;
    if samples[n].High? {
      assert Unbroken(samples, n);
      if Since(samples[n].check, BreachSince(samples).value) >= p.sustain {
        var j :| 0 <= j < |samples| && StartsAt(samples, j, BreachSince(samples).value);
        assert samples[j].High? && Unbroken(samples, j);
      }
    }
  }

  // ---- Recovery, on a tracker shared with the OOM loop ----

  /** What happens on the module's tracker: a tick of this loop, or a call by the other one. */
  datatype Turn = Tick(s: Sample) | Aside(c: Call)

  function SamplesIn(turns: seq<Turn>): seq<Sample> {
    if turns == [] then []
    else SamplesIn(turns[..|turns| - 1]) + if Last(turns).Tick? then [Last(turns).s] else []
  }

  /** The calls of turn x, at most one. */
  function CallsAt(p: Setting, turns: seq<Turn>, x: nat): (cs: seq<Call>)
    requires x < |turns|
    ensures |cs| <= 1
  {
    match turns[x]
    case Tick(s) => AsksOn(p, BreachSince(SamplesIn(turns[..x])), s)
    case Aside(c) => [c]
  }

  function CallsIn(p: Setting, turns: seq<Turn>): seq<Call> {
    if turns == [] then [] else CallsIn(p, turns[..|turns| - 1]) + CallsAt(p, turns, |turns| - 1)
  }

  /** Tick x ends a sustained breach. */
  predicate Breaches(p: Setting, turns: seq<Turn>, x: nat)
    requires x < |turns|
  {
    turns[x].Tick? && CallsAt(p, turns, x) != [] && CallsAt(p, turns, x)[0].Observe?
  }

  /** The calls of a turn stand behind those of the turns before it. */
  lemma {:induction false} CallsStand(p: Setting, turns: seq<Turn>, x: nat)
    requires x < |turns|
    ensures var n, cs := |CallsIn(p, turns[..x])|, CallsAt(p, turns, x);
            n + |cs| <= |CallsIn(p, turns)| && (cs != [] ==> CallsIn(p, turns)[n] == cs[0])
  {
    var before := turns[..|turns| - 1];
    if x < |before| {
      CallsStand(p, before, x);
      assert before[..x] == turns[..x] && CallsAt(p, before, x) == CallsAt(p, turns, x);
    }
  }

  lemma {:induction false} TurnOf(p: Setting, turns: seq<Turn>, n: nat) returns (x: nat)
    requires n < |CallsIn(p, turns)|
    ensures x < |turns| && |CallsIn(p, turns[..x])| == n && CallsAt(p, turns, x) == [CallsIn(p, turns)[n]]
  {
    var before := turns[..|turns| - 1];
    if n < |CallsIn(p, before)| {
      x := TurnOf(p, before, n);
      assert before[..x] == turns[..x];
    } else {
      x := |turns| - 1;
    }
  }

  /** The psi_high alert is resolved only on a calm tick that ends at least `recovery` of calm, begun by
      another calm tick and without a sustained breach in it, whatever the other loop does on the tracker. */
  lemma {:induction false} ResolvedAfterRecovery(p: Setting, turns: seq<Turn>, cfg: Config)
    requires turns != [] && Last(turns).Tick? && Last(turns).s.Low?
    requires forall t <- turns :: t.Aside? ==> t.c.Key() != p.b.Fp()
    requires var calls := CallsIn(p, turns); calls != [] && Last(History(cfg, calls)).out.Some?
    ensures exists i :: 0 <= i < |turns| - 1 && CalmSince(p, turns, i, cfg.recovery)
  {
    LastCall(p, turns);
    var j := QuietSample(cfg, CallsIn(p, turns), p.b.Fp());
    var i := TurnOf(p, turns, j);
    CalmTick(p, turns, i, CallsIn(p, turns)[j]);
    forall x | i <= x < |turns| ensures !Breaches(p, turns, x) { NoBreach(p, turns, i, x); }
    assert CalmSince(p, turns, i, cfg.recovery);
  }

  /** Tick i is calm, `recovery` before the last one, and no tick since ends a sustained breach. */
  ghost predicate CalmSince(p: Setting, turns: seq<Turn>, i: nat, recovery: nat)
    requires i < |turns| && Last(turns).Tick? && Last(turns).s.Low?
  {
    && turns[i].Tick? && turns[i].s.Low? && Since(Last(turns).s.now, turns[i].s.now) >= recovery
    && forall x :: i <= x < |turns| ==> !Breaches(p, turns, x)
  }

  lemma LastCall(p: Setting, turns: seq<Turn>)
    requires turns != [] && Last(turns).Tick? && Last(turns).s.Low?
    ensures var calls := CallsIn(p, turns);
            calls != [] && Last(calls) == ObserveOk(p.b.Fp(), Last(turns).s.now, Last(turns).s.wall)
  {
  }

  /** An OK sample of psi_high is a calm tick, for the other loop is about other keys. */
  lemma CalmTick(p: Setting, turns: seq<Turn>, i: nat, c: Call)
    requires i < |turns| && CallsAt(p, turns, i) == [c] && c.ObserveOk? && c.fp == p.b.Fp()
    requires forall t <- turns :: t.Aside? ==> t.c.Key() != p.b.Fp()
    ensures turns[i].Tick? && turns[i].s.Low? && turns[i].s.now == c.now
  {
    assert turns[i] in turns;
  }

  /** Calls from n on hold no observe of fp. */
  ghost predicate NotObserved(calls: seq<Call>, fp: string, n: nat) {
    forall m :: n <= m < |calls| ==> !(calls[m].Observe? && calls[m].Key() == fp)
  }

  /** The sample that a resolve by the last call goes back to. */
  lemma {:induction false} QuietSample(cfg: Config, calls: seq<Call>, fp: string) returns (j: nat)
    requires calls != [] && Last(calls).ObserveOk? && Last(calls).fp == fp && Last(History(cfg, calls)).out.Some?
    ensures j < |calls| - 1 && calls[j].ObserveOk? && calls[j].fp == fp && NotObserved(calls, fp, j)
    ensures Since(Last(calls).now, calls[j].now) >= cfg.recovery
  {
    var k := |calls| - 1;
    ResolveNeedsQuietStretch(cfg, calls, k);
    j :| 0 <= j < k && QuietSince(cfg, calls, j, k);
  }

  lemma {:induction false} NoBreach(p: Setting, turns: seq<Turn>, i: nat, x: nat)
    requires i <= x < |turns| && NotObserved(CallsIn(p, turns), p.b.Fp(), |CallsIn(p, turns[..i])|)
    ensures !Breaches(p, turns, x)
  {
    CallsStand(p, turns, x);
    if i < x {
      CallsStand(p, turns[..x], i);
      assert turns[..x][..i] == turns[..i];
    }
  }
}
