/** What the firing map holds and what browsers are told, against what was reported, over whole runs:
    collector/src/state.rs and every caller of `apply_alert` and `broadcast`. */
module Ledger {
  import opened Basics
  import opened Shared
  import opened Collector
  import G = Gui

  // ---- What is reported ----

  /** An alert bears on the map if it is firing, or closes what is firing. */
  predicate Bears(firing: Firings, a: Alert) { a.state == Firing || a.fingerprint in firing }

  /** The alert that a step puts on record: one that came in, one that an operator or the watcher closes, or
      the watcher's own. */
  ghost function Reported(s: State, x: Action): seq<Alert>
    requires Enabled(s, x)
  {
    match x
    case IngestApply(t) => if Bears(s.firing, s.tasks[t].a) then [s.tasks[t].a] else []
    case SyslogApply(_, a) => if Bears(s.firing, a) then [a] else []
    case ResolveBegin(_, fp, now) => [s.firing[fp].(state := Resolved, lastSeen := now, ts := now)]
    case Watch => Noticed(s, s.tick.left[0].0, s.tick.left[0].1, s.tick.now)
    case _ => []
  }

  /** What the watcher has to say about a host, if that is news. */
  function Noticed(s: State, id: string, host: Host, now: int): seq<Alert> {
    var key, off := Fingerprint(id, "collector", None, "host_offline"), TooLong(now - host.lastSeen, s.after);
    if id in s.lastOnline && s.lastOnline[id] == !off then []
    else if off then
      [Alert(host.name, id, "collector", Severity.Critical, Firing, None, "host_offline", key, now, now, now, 1)]
    else if key in s.firing then [s.firing[key].(state := Resolved, ts := now)]
    else []
  }

  ghost function ReportedIn(s: State, xs: seq<Action>): seq<Alert>
    decreases |xs|
  {
    if xs == [] then []
    else (if Enabled(s, xs[0]) then Reported(s, xs[0]) else []) + ReportedIn(Do(s, xs[0]), xs[1..])
  }

  /** In every run, what is changed is what is reported, in that order. */
  lemma {:induction false} ChangesAreReports(s: State, xs: seq<Action>)
    ensures Run(s, xs).changes == s.changes + ReportedIn(s, xs)
    decreases |xs|
  {
    if xs == [] {
      NothingAdded(s.changes);
    } else {
      ChangesAreReports(Do(s, xs[0]), xs[1..]);
      var now := if Enabled(s, xs[0]) then Reported(s, xs[0]) else [];
      NothingAdded(s.changes);
      Regroup(s.changes, now, ReportedIn(Do(s, xs[0]), xs[1..]));
    }
  }

  // ---- What the map holds ----

  /** The map holds under fp the last alert on record with this fingerprint, if that is a firing one. */
  ghost predicate HoldsLast(firing: Firings, changes: seq<Alert>, fp: string) {
    var last := G.LastOf(changes, fp);
    && (fp in firing <==> last.Some? && last.value.state == Firing)
    && (fp in firing ==> firing[fp] == last.value)
  }

  lemma {:induction false} ApplyHolds(s: State, t: nat, a: Alert, fp: string)
    requires KeysFit(s.firing) && HoldsLast(s.firing, s.changes, fp)
    ensures var u := Apply(s, t, a); KeysFit(u.firing) && HoldsLast(u.firing, u.changes, fp)
  {
  }

  lemma {:induction false} WatchHolds(s: State, id: string, host: Host, now: int, fp: string)
    requires KeysFit(s.firing) && HoldsLast(s.firing, s.changes, fp) && id in s.hosts
    ensures var u := WatchHost(s, id, host.name, host.lastSeen, now);
            KeysFit(u.firing) && HoldsLast(u.firing, u.changes, fp)
  {
    var online := Online(now, host.lastSeen, s.after);
    var u, key := Judged(s, id, online), OfflineFp(id);
    if !(id in s.lastOnline && s.lastOnline[id] == online) {
      if !online {
        ApplyHolds(u, WATCHER, OfflineAlert(host.name, id, now), fp);
      } else if key in s.firing {
        var a := s.firing[key].(state := Resolved, ts := now);
      }
    }
  }

  lemma {:induction false} StepHolds(s: State, x: Action, fp: string)
    requires KeysFit(s.firing) && HoldsLast(s.firing, s.changes, fp) && Enabled(s, x)
    ensures var u := Do(s, x); KeysFit(u.firing) && HoldsLast(u.firing, u.changes, fp)
  {
    match x
    case IngestApply(t) => ApplyHolds(s, t, s.tasks[t].a, fp);
    case SyslogApply(t, a) => ApplyHolds(Introduce(s, a.hostId), t, a, fp);
    case ResolveBegin(t, key, now) =>
      var a := ClosedBy(s.firing[key], now);
    case Watch => WatchHolds(Popped(s), s.tick.left[0].0, s.tick.left[0].1, s.tick.now, fp);
    case _ =>
  }

  lemma {:induction false} HoldsThroughout(s: State, xs: seq<Action>, fp: string)
    requires KeysFit(s.firing) && HoldsLast(s.firing, s.changes, fp)
    ensures var u := Run(s, xs); KeysFit(u.firing) && HoldsLast(u.firing, u.changes, fp)
    decreases |xs|
  {
    if xs != [] {
      if Enabled(s, xs[0]) { StepHolds(s, xs[0], fp); }
      HoldsThroughout(Do(s, xs[0]), xs[1..], fp);
    }
  }

  /** In every run, however the tasks interleave: what is firing under a fingerprint is exactly the last alert
      reported with it. So a snapshot, and an operator's resolve, carry the latest report. */
  lemma FiringIsLastReport(after: U64, xs: seq<Action>, fp: string)
    ensures HoldsLast(Run(Init(after), xs).firing, ReportedIn(Init(after), xs), fp)
  {
    HoldsThroughout(Init(after), xs, fp);
    ChangesAreReports(Init(after), xs);
    NothingAdded(ReportedIn(Init(after), xs));
  }

  // ---- Every report is told once ----

  /** The tasks that have put alert a on record and have not yet broadcast it. */
  ghost function Untold(tasks: Tasks, a: Alert): set<nat> { set t | t in tasks && Tells(tasks[t], a) }

  predicate Tells(pc: Pc, a: Alert) { !pc.Touched? && pc.a == a }

  ghost predicate ToldOnce(s: State, a: Alert) {
    multiset(s.changes)[a] == multiset(s.sent)[a] + |Untold(s.tasks, a)|
  }

  function One(b: bool): nat { if b then 1 else 0 }

  lemma {:induction false} UntoldAfterSet(tasks: Tasks, t: nat, pc: Pc, a: Alert)
    ensures |Untold(tasks[t := pc], a)|
         == |Untold(tasks, a)| - One(t in tasks && Tells(tasks[t], a)) + One(Tells(pc, a))
  {
    var r, q := Untold(tasks, a), Untold(tasks[t := pc], a);
    if Tells(pc, a) { assert q == r + {t}; } else { assert q == r - {t}; }
  }

  lemma {:induction false} UntoldAfterEnd(tasks: Tasks, t: nat, a: Alert)
    ensures |Untold(tasks - {t}, a)| == |Untold(tasks, a)| - One(t in tasks && Tells(tasks[t], a))
  {
    assert Untold(tasks - {t}, a) == Untold(tasks, a) - {t};
  }

  /** Task t, which has nothing to tell, puts an alert on record. */
  lemma {:induction false} RecordToldOnce(s: State, u: State, t: nat, pc: Pc, a: Alert)
    requires ToldOnce(s, a) && (t in s.tasks ==> s.tasks[t].Touched?) && !pc.Touched?
    requires u.changes == s.changes + [pc.a] && u.sent == s.sent && u.tasks == s.tasks[t := pc]
    ensures ToldOnce(u, a)
  {
    UntoldAfterSet(s.tasks, t, pc, a);
  }

  lemma {:induction false} ApplyToldOnce(s: State, t: nat, b: Alert, a: Alert)
    requires ToldOnce(s, a) && (t in s.tasks ==> s.tasks[t].Touched?)
    ensures ToldOnce(Apply(s, t, b), a)
  {
    var u := Apply(s, t, b);
    if Changed(s.firing, b) { RecordToldOnce(s, u, t, u.tasks[t], a); } else { UntoldAfterEnd(s.tasks, t, a); }
  }

  lemma {:induction false} WatchToldOnce(s: State, id: string, host: Host, now: int, a: Alert)
    requires ToldOnce(s, a) && WATCHER !in s.tasks && id in s.hosts
    ensures ToldOnce(WatchHost(s, id, host.name, host.lastSeen, now), a)
  {
    var online := Online(now, host.lastSeen, s.after);
    var u, key := Judged(s, id, online), OfflineFp(id);
    if !(id in s.lastOnline && s.lastOnline[id] == online) {
      if !online {
        ApplyToldOnce(u, WATCHER, OfflineAlert(host.name, id, now), a);
      } else if key in s.firing {
        var b := s.firing[key].(state := Resolved, ts := now);
        RecordToldOnce(u, Remove(u, WATCHER, key, b, Broadcasting(b)), WATCHER, Broadcasting(b), a);
      }
    }
  }

  lemma {:induction false} StepToldOnce(s: State, x: Action, a: Alert)
    requires ToldOnce(s, a) && Enabled(s, x)
    ensures ToldOnce(Do(s, x), a)
  {
    match x
    case Hello(_, _, _, _) =>
    case Heartbeat(_, _, _) =>
    case IngestTouch(t, b) => UntoldAfterSet(s.tasks, t, Touched(b), a);
    case IngestApply(t) => ApplyToldOnce(s, t, s.tasks[t].a, a);
    case SyslogApply(t, b) => ApplyToldOnce(Introduce(s, b.hostId), t, b, a);
    case BumpEnd(t) => UntoldAfterSet(s.tasks, t, Broadcasting(s.tasks[t].a), a);
    case ResolveBegin(t, fp, now) =>
      RecordToldOnce(s, Do(s, x), t, Decrementing(ClosedBy(s.firing[fp], now)), a);
    case ResolveEnd(t) => UntoldAfterSet(s.tasks, t, Broadcasting(s.tasks[t].a), a);
    case TickBegin(_, _) =>
    case Watch => WatchToldOnce(Popped(s), s.tick.left[0].0, s.tick.left[0].1, s.tick.now, a);
    case Send(t) =>
      UntoldAfterEnd(s.tasks, t, a);
  }

  lemma {:induction false} ToldOnceThroughout(s: State, xs: seq<Action>, a: Alert)
    requires ToldOnce(s, a)
    ensures ToldOnce(Run(s, xs), a)
    decreases |xs|
  {
    if xs != [] {
      if Enabled(s, xs[0]) { StepToldOnce(s, xs[0], a); }
      ToldOnceThroughout(Do(s, xs[0]), xs[1..], a);
    }
  }

  /** In every run: an alert has been reported as often as it has been broadcast and as tasks are about to
      broadcast it. Nothing is told twice, nothing is told that was not reported, and no report is forgotten. */
  lemma EachReportToldOnce(after: U64, xs: seq<Action>, a: Alert)
    ensures var s := Run(Init(after), xs);
            multiset(ReportedIn(Init(after), xs))[a] == multiset(s.sent)[a] + |Untold(s.tasks, a)|
  {
    ToldOnceThroughout(Init(after), xs, a);
    ChangesAreReports(Init(after), xs);
    NothingAdded(ReportedIn(Init(after), xs));
  }

  // ---- Where a report comes from ----

  /** Task t has read alert a and not yet applied it. */
  ghost predicate Holding(s: State, t: nat, a: Alert) { t in s.tasks && s.tasks[t] == Touched(a) }

  ghost predicate HoldingAt(after: U64, xs: seq<Action>, j: nat, t: nat, a: Alert)
    requires j <= |xs|
  {
    Holding(Run(Init(after), xs[..j]), t, a)
  }

  lemma {:induction false} HeldBefore(s: State, x: Action, t: nat, a: Alert)
    requires Holding(Do(s, x), t, a)
    ensures Holding(s, t, a) || x == IngestTouch(t, a)
  {
    if Enabled(s, x) {
      match x
      case IngestApply(u) =>
      case SyslogApply(u, b) =>
      case Watch => WatchHoldsNothing(Popped(s), s.tick.left[0].0, s.tick.left[0].1, s.tick.now, t, a);
      case _ =>
    }
  }

  lemma {:induction false} WatchHoldsNothing(s: State, id: string, host: Host, now: int, t: nat, a: Alert)
    requires id in s.hosts
    ensures Holding(WatchHost(s, id, host.name, host.lastSeen, now), t, a) ==> Holding(s, t, a)
  {
  }

  /** What a task applies is what it has read off its connection: it was read by an earlier step of the run,
      and the task has held it ever since. */
  lemma {:induction false} HeldWasRead(after: U64, xs: seq<Action>, t: nat, a: Alert) returns (i: nat)
    requires Holding(Run(Init(after), xs), t, a)
    ensures i < |xs| && xs[i] == IngestTouch(t, a)
    ensures forall j :: i < j <= |xs| ==> HoldingAt(after, xs, j, t, a)
  {
    var n := |xs| - 1;
    var before := xs[..n];
    RunSnoc(Init(after), xs);
    assert xs[..|xs|] == xs;
    if Holding(Run(Init(after), before), t, a) {
      i := HeldWasRead(after, before, t, a);
      forall j | i < j <= n ensures HoldingAt(after, xs, j, t, a) {
        assert HoldingAt(after, before, j, t, a);
        assert before[..j] == xs[..j];
      }
    } else {
      i := n;
      HeldBefore(Run(Init(after), before), xs[n], t, a);
    }
  }
}
