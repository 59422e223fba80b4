/** The offline watcher over whole runs: collector/src/main.rs, spawn_offline_watcher. */
module Watcher {
  import opened Basics
  import opened Shared
  import opened Collector

  /** The changes of one key in the order they were made. */
  function Log(changes: seq<Alert>, fp: string): seq<AlertState> {
    if changes == [] then []
    else
      var last := changes[|changes| - 1];
      Log(changes[..|changes| - 1], fp) + if last.fingerprint == fp then [last.state] else []
  }

  /** The watcher's HostStatus broadcasts about one host. */
  function Verdicts(status: seq<Verdict>, h: string): seq<bool> {
    if status == [] then []
    else
      var last := status[|status| - 1];
      Verdicts(status[..|status| - 1], h) + if last.id == h then [last.online] else []
  }

  lemma LogSnoc(changes: seq<Alert>, a: Alert, fp: string)
    ensures Log(changes + [a], fp) == Log(changes, fp) + if a.fingerprint == fp then [a.state] else []
  {
    assert (changes + [a])[..|changes|] == changes;
  }

  ghost predicate Alternates<T>(l: seq<T>) {
    forall i :: 0 < i < |l| ==> l[i - 1] != l[i]
  }

  /** The log of a host_offline key alternates, starting with Firing, and ends in Firing iff the key is in the map. */
  ghost predicate LogFits(changes: seq<Alert>, firing: Firings, k: string) {
    var l := Log(changes, k);
    Alternates(l) && (l != [] ==> l[0] == Firing) && (k in firing <==> l != [] && l[|l| - 1] == Firing)
  }

  /** The verdicts on a host alternate, and the last one is what the watcher remembers. */
  ghost predicate VerdictsFit(status: seq<Verdict>, lastOnline: map<string, bool>, h: string) {
    var v := Verdicts(status, h);
    Alternates(v) && (h in lastOnline <==> v != []) && (h in lastOnline ==> lastOnline[h] == v[|v| - 1])
  }

  /** No agent's alert of key k is about to be applied. */
  ghost predicate NotHeld(tasks: Tasks, k: string) {
    forall t <- tasks :: tasks[t].Touched? ==> tasks[t].a.fingerprint != k
  }

  /** The watcher's hold on host h, whose key is k. */
  ghost predicate Watched(s: State, h: string, k: string) {
    && (k in s.firing ==> OfflineRecorded(s, h))
    && LogFits(s.changes, s.firing, k)
    && VerdictsFit(s.status, s.lastOnline, h)
    && (h in s.lastOnline ==> h in s.hosts)
    && NotHeld(s.tasks, k)
    && KeysFit(s.firing)
    && (forall id <- s.hosts :: OfflineFp(id) == k ==> id == h)
  }

  /** What an action brings in from outside does not touch key k, and no other host shares it. */
  ghost predicate Apart(x: Action, h: string, k: string) {
    match x
    case Hello(id, _, _, _) => OfflineFp(id) == k ==> id == h
    case Heartbeat(id, _, _) => OfflineFp(id) == k ==> id == h
    case IngestTouch(_, a) => a.fingerprint != k && (OfflineFp(a.hostId) == k ==> a.hostId == h)
    case SyslogApply(_, a) => a.fingerprint != k
    case _ => true
  }

  lemma {:induction false} ApplyWatched(s: State, t: nat, a: Alert, h: string, k: string)
    requires Watched(s, h, k)
    requires a.fingerprint == k ==> a.state == Firing && k !in s.firing && OfflineRecorded(s, h)
    ensures Watched(Apply(s, t, a), h, k)
  {
    if Changed(s.firing, a) {
      var u := Apply(s, t, a);
    }
  }

  lemma {:induction false} RemoveWatched(s: State, t: nat, fp: string, a: Alert, pc: Pc, h: string, k: string)
    requires Watched(s, h, k) && fp in s.firing && a.fingerprint == fp && a.state == Resolved && !pc.Touched?
    ensures Watched(Remove(s, t, fp, a, pc), h, k)
  {
  }

  lemma {:induction false} JudgedWatched(s: State, id: string, online: bool, h: string, k: string)
    requires Watched(s, h, k) && id in s.hosts && (id in s.lastOnline ==> s.lastOnline[id] != online)
    requires id == h && online ==> k !in s.firing
    ensures Watched(Judged(s, id, online), h, k)
  {
  }

  lemma {:induction false} WatchWatched(s: State, id: string, name: string, seen: int, now: int, h: string, k: string)
    requires Watched(s, h, k) && id in s.hosts && OfflineFp(h) == k
    ensures Watched(WatchHost(s, id, name, seen, now), h, k)
  {
    var online := Online(now, seen, s.after);
    var fp := OfflineFp(id);
    if !(id in s.lastOnline && s.lastOnline[id] == online) {
      if !online {
        JudgedWatched(s, id, online, h, k);
        ApplyWatched(Judged(s, id, online), WATCHER, OfflineAlert(name, id, now), h, k);
      } else if fp in s.firing {
        var a := s.firing[fp].(state := Resolved, ts := now);
        var pc := Broadcasting(a);
        RemoveWatched(s, WATCHER, fp, a, pc, h, k);
        JudgedWatched(Remove(s, WATCHER, fp, a, pc), id, online, h, k);
        assert Remove(Judged(s, id, online), WATCHER, fp, a, pc) == Judged(Remove(s, WATCHER, fp, a, pc), id, online);
      } else {
        JudgedWatched(s, id, online, h, k);
      }
    }
  }

  lemma {:induction false} StepWatched(s: State, x: Action, h: string, k: string)
    requires Watched(s, h, k) && OfflineFp(h) == k && Apart(x, h, k) && Enabled(s, x)
    ensures Watched(Do(s, x), h, k)
  {
    match x
    case Hello(_, _, _, _) =>
    case Heartbeat(_, _, _) =>
    case IngestTouch(_, _) =>
    case IngestApply(t) => ApplyWatched(s, t, s.tasks[t].a, h, k);
    case SyslogApply(t, a) => ApplyWatched(Introduce(s, a.hostId), t, a, h, k);
    case BumpEnd(_) =>
    case ResolveBegin(t, fp, now) =>
      var a := ClosedBy(s.firing[fp], now);
      RemoveWatched(s, t, fp, a, Decrementing(a), h, k);
    case ResolveEnd(_) =>
    case TickBegin(_, _) =>
    case Watch =>
      var w := s.tick.left[0];
      WatchWatched(Popped(s), w.0, w.1.name, w.1.lastSeen, s.tick.now, h, k);
    case Send(_) =>
  }

  lemma {:induction false} WatchedThroughout(s: State, xs: seq<Action>, h: string, k: string)
    requires Watched(s, h, k) && OfflineFp(h) == k && forall x <- xs :: Apart(x, h, k)
    ensures Watched(Run(s, xs), h, k)
    decreases |xs|
  {
    if xs != [] {
      if Enabled(s, xs[0]) { StepWatched(s, xs[0], h, k); }
      WatchedThroughout(Do(s, xs[0]), xs[1..], h, k);
    }
  }

  lemma SameOfflineFp(id: string, h: string)
    requires BarFree(id) && BarFree(h)
    ensures OfflineFp(id) == OfflineFp(h) <==> id == h
  {
    assert PlainFields(id, COLLECTOR, "host_offline") && PlainFields(h, COLLECTOR, "host_offline");
    FingerprintInjective(id, COLLECTOR, None, "host_offline", h, COLLECTOR, None, "host_offline");
  }

  lemma NotOfflineFp(a: Alert, h: string)
    requires WellFormed(a) && a.category != COLLECTOR && BarFree(h)
    ensures a.fingerprint != OfflineFp(h)
  {
    assert PlainFields(h, COLLECTOR, "host_offline");
    FingerprintInjective(a.hostId, a.category, a.device, a.metric, h, COLLECTOR, None, "host_offline");
  }

  lemma GenuineApart(xs: seq<Action>, h: string)
    requires AllGenuine(xs) && BarFree(h)
    ensures forall x <- xs :: Apart(x, h, OfflineFp(h))
  {
    forall x | x in xs ensures Apart(x, h, OfflineFp(h)) {
      match x
      case Hello(id, _, _, _) => SameOfflineFp(id, h);
      case Heartbeat(id, _, _) => SameOfflineFp(id, h);
      case IngestTouch(_, a) =>
        NotOfflineFp(a, h);
        SameOfflineFp(a.hostId, h);
      case SyslogApply(_, a) => NotOfflineFp(a, h);
      case _ =>
    }
  }

  /** In every run, for every host: its host_offline key is in the firing map only while the watcher
      has it down as offline; the watcher's HostStatus broadcasts strictly alternate; and the changes of
      the key alternate, so two firings of it have a resolve in between. */
  lemma OfflineDiscipline(after: U64, xs: seq<Action>, h: string)
    requires AllGenuine(xs) && BarFree(h)
    ensures var s := Run(Init(after), xs);
            && (OfflineFp(h) in s.firing ==> OfflineRecorded(s, h))
            && Alternates(Verdicts(s.status, h))
            && Alternates(Log(s.changes, OfflineFp(h)))
  {
    GenuineApart(xs, h);
    WatchedThroughout(Init(after), xs, h, OfflineFp(h));
  }

  /** Only the watcher brings k in, and only it and operators take it out. */
  lemma {:induction false} OnlyThese(s: State, x: Action, h: string, k: string)
    requires Watched(s, h, k) && Apart(x, h, k) && Enabled(s, x)
    ensures k in Do(s, x).firing && k !in s.firing ==> x.Watch?
    ensures k !in Do(s, x).firing && k in s.firing ==> x.Watch? || (x.ResolveBegin? && x.fp == k)
    ensures x.ResolveBegin? && x.fp == k ==> k !in Do(s, x).firing && k in s.firing
  {
    match x
    case IngestApply(t) =>
    case SyslogApply(t, a) =>
    case Watch =>
    case ResolveBegin(t, fp, now) => assert Do(s, x).firing == s.firing - {fp};
    case _ => FiringLeftAlone(s, x);
  }

  /** A host_offline firing goes with a verdict "offline" on that host issued in the same step. */
  lemma {:induction false} RaisedOnVerdict(s: State, h: string, k: string)
    requires Watched(s, h, k) && OfflineFp(h) == k && Enabled(s, Watch)
    requires k !in s.firing && k in Do(s, Watch).firing
    ensures s.tick.left[0].0 == h && Do(s, Watch).status == s.status + [Verdict(h, false)]
  {
    var w := s.tick.left[0];
    assert OfflineAlert(w.1.name, w.0, s.tick.now).fingerprint == OfflineFp(w.0);
  }
}
