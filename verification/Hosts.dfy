/** What the collector knows of a host, read off what it has heard from it: the hosts map of
    collector/src/state.rs, and the silence that the offline watcher judges by. */
module Hosts {
  import opened Basics
  import opened Shared
  import opened Collector
  import W = Watcher

  /** What a step tells the collector of a host: a greeting, or a heartbeat or alert with its time. */
  datatype News =
    | Greeting(id: string, name: string, startedAt: int, maintenance: bool)
    | Sign(id: string, name: string, ts: int)

  /** Greetings and heartbeats always count; an alert does unless its host is in maintenance. */
  ghost function Heard(s: State, x: Action): seq<News> {
    match x
    case Hello(id, name, startedAt, maintenance) => [Greeting(id, name, startedAt, maintenance)]
    case Heartbeat(id, name, ts) => [Sign(id, name, ts)]
    case IngestTouch(_, a) =>
      if Enabled(s, x) && !(a.hostId in s.hosts && s.hosts[a.hostId].maintenance) then [Sign(a.hostId, a.host, a.ts)]
      else []
    case _ => []
  }

  ghost function HeardIn(s: State, xs: seq<Action>): seq<News>
    decreases |xs|
  {
    if xs == [] then [] else Heard(s, xs[0]) + HeardIn(Do(s, xs[0]), xs[1..])
  }

  // ---- Searching what was heard ----

  predicate From(n: News, id: string) { n.id == id }

  /** Index of the last news of a host that is of interest, or -1. */
  function LastNews(ns: seq<News>, id: string, greeting: bool, sign: bool): (i: int)
    ensures -1 <= i < |ns|
    ensures i >= 0 ==> From(ns[i], id) && (ns[i].Greeting? ==> greeting) && (ns[i].Sign? ==> sign)
  {
    if ns == [] then -1
    else
      var last := ns[|ns| - 1];
      if From(last, id) && (if last.Greeting? then greeting else sign) then |ns| - 1
      else LastNews(ns[..|ns| - 1], id, greeting, sign)
  }

  /** Index of the first news of a host, or the length. */
  function FirstNews(ns: seq<News>, id: string): (i: nat)
    ensures i <= |ns|
    ensures i < |ns| ==> From(ns[i], id)
  {
    if ns == [] then 0
    else
      var before := FirstNews(ns[..|ns| - 1], id);
      if before < |ns| - 1 then before else if From(ns[|ns| - 1], id) then |ns| - 1 else |ns|
  }

  /** When a host was last seen: the time of its last sign of life, or else the start of the agent as its
      first greeting gave it. */
  function SeenAt(ns: seq<News>, id: string): int {
    var sign, first := LastNews(ns, id, false, true), FirstNews(ns, id);
    if sign >= 0 then ns[sign].ts else if first < |ns| && ns[first].Greeting? then ns[first].startedAt else 0
  }

  /** The record of a host is what was heard of it: there is one iff anything was; it has the name last
      given, the time of SeenAt, and the maintenance flag of the last greeting. */
  ghost predicate Reflects(hosts: Hosts, ns: seq<News>, id: string) {
    var any, greeting := LastNews(ns, id, true, true), LastNews(ns, id, true, false);
    && (id in hosts <==> any >= 0)
    && (any >= 0 <==> FirstNews(ns, id) < |ns|)
    && (id in hosts ==>
          && hosts[id].name == ns[any].name
          && hosts[id].lastSeen == SeenAt(ns, id)
          && hosts[id].maintenance == (greeting >= 0 && ns[greeting].maintenance))
  }

  lemma {:induction false} NoNewsAtAll(ns: seq<News>, id: string, greeting: bool, sign: bool)
    ensures LastNews(ns, id, greeting, sign) <= LastNews(ns, id, true, true)
  {
    if ns != [] { NoNewsAtAll(ns[..|ns| - 1], id, greeting, sign); }
  }

  /** Any news of the host before its first sign of life is a greeting. */
  lemma {:induction false} NoSignNoTouch(ns: seq<News>, id: string)
    ensures LastNews(ns, id, false, true) < 0 && FirstNews(ns, id) < |ns| ==> ns[FirstNews(ns, id)].Greeting?
  {
    if ns != [] {
      var before := ns[..|ns| - 1];
      NoSignNoTouch(before, id);
      assert forall i :: 0 <= i < |before| ==> before[i] == ns[i];
    }
  }

  function After(hosts: Hosts, n: News): Hosts {
    match n
    case Greeting(id, name, startedAt, maintenance) => Register(hosts, id, name, startedAt, maintenance)
    case Sign(id, name, ts) => Touch(hosts, name, id, ts)
  }

  lemma {:induction false} NewsReflected(hosts: Hosts, ns: seq<News>, n: News, id: string)
    requires Reflects(hosts, ns, id)
    ensures Reflects(After(hosts, n), ns + [n], id)
  {
    NoSignNoTouch(ns, id);
    NoNewsAtAll(ns, id, true, false);
    NoNewsAtAll(ns, id, false, true);
  }

  /** Counting changes nothing but counters. */
  ghost predicate SameButCounts(hosts: Hosts, hosts': Hosts) {
    && hosts'.Keys == hosts.Keys
    && forall id <- hosts :: hosts'[id] == hosts[id].(count := hosts'[id].count)
  }

  lemma {:induction false} BumpSame(hosts: Hosts, id: string, delta: int)
    ensures SameButCounts(hosts, Bump(hosts, id, delta))
  {
  }

  lemma {:induction false} StepHeard(s: State, x: Action)
    ensures Heard(s, x) == [] ==> SameButCounts(s.hosts, Do(s, x).hosts)
    ensures Heard(s, x) != [] ==> |Heard(s, x)| == 1 && Do(s, x).hosts == After(s.hosts, Heard(s, x)[0])
  {
    match x
    case BumpEnd(t) => if Enabled(s, x) { BumpSame(s.hosts, s.tasks[t].a.hostId, s.tasks[t].delta); }
    case ResolveEnd(t) => if Enabled(s, x) { BumpSame(s.hosts, s.tasks[t].a.hostId, -1); }
    case Hello(_, _, _, _) =>
    case Heartbeat(_, _, _) =>
    case IngestTouch(_, _) =>
    case Watch => NothingSeen(s);
    case _ => NothingHeard(s, x);
  }

  lemma {:induction false} NothingSeen(s: State)
    ensures Do(s, Watch).hosts == s.hosts
  {
  }

  lemma {:induction false} NothingHeard(s: State, x: Action)
    requires x.IngestApply? || x.SyslogApply? || x.ResolveBegin? || x.TickBegin? || x.Send?
    ensures Do(s, x).hosts == s.hosts
  {
  }

  lemma {:induction false} StepReflected(s: State, x: Action, ns: seq<News>, id: string)
    requires Reflects(s.hosts, ns, id)
    ensures Reflects(Do(s, x).hosts, ns + Heard(s, x), id)
  {
    var now := Heard(s, x);
    StepHeard(s, x);
    if now == [] {
      assert ns + now == ns;
    } else {
      assert now == [now[0]];
      NewsReflected(s.hosts, ns, now[0], id);
    }
  }

  lemma {:induction false} ReflectedThroughout(s: State, xs: seq<Action>, ns: seq<News>, id: string)
    requires Reflects(s.hosts, ns, id)
    ensures Reflects(Run(s, xs).hosts, ns + HeardIn(s, xs), id)
    decreases |xs|
  {
    if xs == [] {
      NothingAdded(ns);
    } else {
      StepReflected(s, xs[0], ns, id);
      ReflectedThroughout(Do(s, xs[0]), xs[1..], ns + Heard(s, xs[0]), id);
      Regroup(ns, Heard(s, xs[0]), HeardIn(Do(s, xs[0]), xs[1..]));
    }
  }

  /** In every run, whatever the tasks: the record of a host is what was heard of it. */
  lemma HostsReflectNews(after: U64, xs: seq<Action>, id: string)
    ensures Reflects(Run(Init(after), xs).hosts, HeardIn(Init(after), xs), id)
  {
    ReflectedThroughout(Init(after), xs, [], id);
    NothingAdded(HeardIn(Init(after), xs));
  }

  // ---- Maintenance ----

  /** The maintenance flag of a host's last greeting. */
  function LastGreeting(xs: seq<Action>, id: string): Option<bool> {
    if xs == [] then None
    else if xs[|xs| - 1].Hello? && xs[|xs| - 1].id == id then Some(xs[|xs| - 1].maintenance)
    else LastGreeting(xs[..|xs| - 1], id)
  }

  /** A host is in maintenance iff its last greeting said so: heartbeats, alerts and counting keep the flag. */
  lemma {:induction false} MaintenanceAsGreeted(after: U64, xs: seq<Action>, id: string)
    ensures var hosts := Run(Init(after), xs).hosts;
            id in hosts && hosts[id].maintenance <==> LastGreeting(xs, id) == Some(true)
  {
    if xs != [] {
      MaintenanceAsGreeted(after, xs[..|xs| - 1], id);
      RunSnoc(Init(after), xs);
      StepHeard(Run(Init(after), xs[..|xs| - 1]), xs[|xs| - 1]);
    }
  }

  /** In every run: an alert from a host whose last greeting asked for maintenance is dropped without a trace;
      any other is taken up by its task, and its sender has been heard of. */
  lemma {:induction false} MaintenanceDrops(after: U64, xs: seq<Action>, t: nat, a: Alert)
    requires Enabled(Run(Init(after), xs), IngestTouch(t, a))
    ensures var s := Run(Init(after), xs);
            var u := Do(s, IngestTouch(t, a));
            if LastGreeting(xs, a.hostId) == Some(true) then u == s
            else
              && u.tasks == s.tasks[t := Touched(a)] && u.firing == s.firing && u.sent == s.sent
              && a.hostId in u.hosts && u.hosts[a.hostId].lastSeen == a.ts && u.hosts[a.hostId].name == a.host
  {
    MaintenanceAsGreeted(after, xs, a.hostId);
  }

  lemma AfterStep(s: State, x: Action)
    ensures Do(s, x).after == s.after
  {
  }

  lemma {:induction false} AfterStays(s: State, xs: seq<Action>)
    ensures Run(s, xs).after == s.after
    decreases |xs|
  {
    if xs != [] {
      AfterStep(s, xs[0]);
      AfterStays(Do(s, xs[0]), xs[1..]);
    }
  }

  // ---- What the watcher judges by ----

  /** The i-th step of the run begins a tick. */
  ghost predicate TickedAt(after: U64, xs: seq<Action>, i: nat) {
    i < |xs| && xs[i].TickBegin? && Enabled(Run(Init(after), xs[..i]), xs[i])
  }

  /** ... and it is the last one that does. */
  ghost predicate LastTick(after: U64, xs: seq<Action>, i: nat) {
    TickedAt(after, xs, i) && forall j: nat :: i < j ==> !TickedAt(after, xs, j)
  }

  lemma TickedBefore(after: U64, xs: seq<Action>, j: nat)
    requires xs != [] && j != |xs| - 1
    ensures TickedAt(after, xs, j) <==> TickedAt(after, xs[..|xs| - 1], j)
  {
    if j < |xs| { assert xs[..|xs| - 1][..j] == xs[..j]; }
  }

  lemma LastTickStays(after: U64, xs: seq<Action>, i: nat)
    requires xs != [] && LastTick(after, xs[..|xs| - 1], i) && !TickedAt(after, xs, |xs| - 1)
    ensures LastTick(after, xs, i) && xs[i] == xs[..|xs| - 1][i]
  {
    TickedBefore(after, xs, i);
    forall j: nat | i < j ensures !TickedAt(after, xs, j) {
      if j != |xs| - 1 { TickedBefore(after, xs, j); }
    }
  }

  /** What is left of a tick comes from the list that began it. */
  predicate LeftOf(tick: Tick, x: Action) { x.TickBegin? && tick.now == x.now && forall e <- tick.left :: e in x.list }

  lemma {:induction false} TickBegun(after: U64, xs: seq<Action>) returns (i: nat)
    requires Run(Init(after), xs).tick.left != []
    ensures LastTick(after, xs, i) && LeftOf(Run(Init(after), xs).tick, xs[i])
  {
    var n := |xs| - 1;
    var before, x := xs[..n], xs[n];
    var s := Run(Init(after), before);
    RunSnoc(Init(after), xs);
    TickMoves(s, x);
    if TickedAt(after, xs, n) {
      i := n;
    } else {
      i := TickBegun(after, before);
      LastTickStays(after, xs, i);
    }
  }

  /** How long a host had been silent at the start of a tick, by what the collector had heard of it. */
  ghost function SilenceAt(after: U64, xs: seq<Action>, i: nat, h: string): int
    requires TickedAt(after, xs, i)
  {
    xs[i].now - SeenAt(HeardIn(Init(after), xs[..i]), h)
  }

  lemma {:induction false} ListedAsHeard(after: U64, xs: seq<Action>, i: nat, e: (string, Host))
    requires TickedAt(after, xs, i) && e in xs[i].list
    ensures xs[i].now - e.1.lastSeen == SilenceAt(after, xs, i, e.0)
  {
    HostsReflectNews(after, xs[..i], e.0);
  }

  /** In every run: whenever the watcher comes to look at a host, it remembers it as offline exactly when at the
      start of the tick the host had been silent for too long. It tells so, once, if that is news, and then
      host_offline is in the firing map exactly when the host is offline. Nothing else comes or goes. */
  lemma {:induction false} OfflineMeansSilence(after: U64, xs: seq<Action>) returns (i: nat)
    requires Enabled(Run(Init(after), xs), Watch)
    ensures LastTick(after, xs, i)
    ensures var s := Run(Init(after), xs);
            var h, u := s.tick.left[0].0, Do(s, Watch);
            var off := TooLong(SilenceAt(after, xs, i, h), after);
            var known := h in s.lastOnline && s.lastOnline[h] == !off;
            && u.lastOnline == s.lastOnline[h := !off]
            && u.status == s.status + (if known then [] else [Verdict(h, !off)])
            && (OfflineFp(h) in u.firing <==> if known then OfflineFp(h) in s.firing else off)
            && u.firing - {OfflineFp(h)} == s.firing - {OfflineFp(h)}
  {
    var s := Run(Init(after), xs);
    i := TickBegun(after, xs);
    ListedAsHeard(after, xs, i, s.tick.left[0]);
    AfterStays(Init(after), xs);
    LookExactly(s);
  }

  lemma {:induction false} LookExactly(s: State)
    requires Enabled(s, Watch)
    ensures var (h, host) := s.tick.left[0];
            var u, off := Do(s, Watch), TooLong(s.tick.now - host.lastSeen, s.after);
            var known := h in s.lastOnline && s.lastOnline[h] == !off;
            && u.lastOnline == s.lastOnline[h := !off]
            && u.status == s.status + (if known then [] else [Verdict(h, !off)])
            && (OfflineFp(h) in u.firing <==> if known then OfflineFp(h) in s.firing else off)
            && u.firing - {OfflineFp(h)} == s.firing - {OfflineFp(h)}
  {
    var (h, host) := s.tick.left[0];
    OfflineExactly(s.tick.now, host.lastSeen, s.after);
    assert OfflineAlert(host.name, h, s.tick.now).fingerprint == OfflineFp(h);
    NothingAdded(s.status);
    assert h in s.lastOnline ==> s.lastOnline[h := s.lastOnline[h]] == s.lastOnline;
  }

  // ---- A tick looks at everybody ----

  /** The watcher remembers of a host what its silence on the list says. */
  predicate JudgedBy(lastOnline: map<string, bool>, e: (string, Host), now: int, after: U64) {
    e.0 in lastOnline && lastOnline[e.0] == !TooLong(now - e.1.lastSeen, after)
  }

  /** Of the list that began the tick, every host is still to be looked at or has been judged. */
  ghost predicate Covers(s: State, begin: Action) {
    && begin.TickBegin? && s.tick.now == begin.now
    && (forall x, y :: x in begin.list && y in begin.list && x.0 == y.0 ==> x == y)
    && (forall e <- s.tick.left :: e in begin.list)
    && (forall e <- begin.list :: e in s.tick.left || JudgedBy(s.lastOnline, e, begin.now, s.after))
  }

  lemma {:induction false} CoversOneLess(s: State, begin: Action)
    requires Covers(s, begin) && Enabled(s, Watch)
    ensures Covers(Do(s, Watch), begin)
  {
    var u, head := Do(s, Watch), s.tick.left[0];
    TickMoves(s, Watch);
    AfterStep(s, Watch);
    LookExactly(s);
    assert s.tick.left == [head] + s.tick.left[1..];
    forall e | e in begin.list ensures e in u.tick.left || JudgedBy(u.lastOnline, e, begin.now, u.after) {
      if e.0 == head.0 { assert e == head; }
    }
  }

  lemma CoversAll(s: State, x: Action)
    requires x.TickBegin? && Enabled(s, x)
    ensures Covers(Do(s, x), x)
  {
    forall a, b | a in x.list && b in x.list && a.0 == b.0 ensures a == b {
      var i, j :| 0 <= i < |x.list| && x.list[i] == a && 0 <= j < |x.list| && x.list[j] == b;
    }
  }

  lemma OnlyWatchJudges(s: State, x: Action)
    requires !x.Watch? || !Enabled(s, x)
    ensures Do(s, x).lastOnline == s.lastOnline
  {
  }

  lemma {:induction false} TickCovers(after: U64, xs: seq<Action>, i: nat)
    requires LastTick(after, xs, i)
    ensures Covers(Run(Init(after), xs), xs[i])
  {
    var n := |xs| - 1;
    var before, x := xs[..n], xs[n];
    var s := Run(Init(after), before);
    RunSnoc(Init(after), xs);
    if i == n {
      CoversAll(s, x);
    } else {
      TickedBefore(after, xs, i);
      forall j: nat | i < j ensures !TickedAt(after, before, j) { if j != n { TickedBefore(after, xs, j); } }
      TickCovers(after, before, i);
      if x.Watch? && Enabled(s, x) {
        CoversOneLess(s, xs[i]);
      } else {
        assert !TickedAt(after, xs, n);
        TickMoves(s, x);
        AfterStep(s, x);
        OnlyWatchJudges(s, x);
      }
    }
  }

  /** In every run: once a tick is done, the watcher remembers every host that was known when it began as offline
      exactly if it had been silent for too long by then. */
  lemma {:induction false} TickJudgesAll(after: U64, xs: seq<Action>, i: nat, h: string)
    requires LastTick(after, xs, i) && Run(Init(after), xs).tick.left == []
    requires h in Run(Init(after), xs[..i]).hosts
    ensures var s := Run(Init(after), xs);
            h in s.lastOnline && (s.lastOnline[h] <==> !TooLong(SilenceAt(after, xs, i, h), after))
  {
    var e := (h, Run(Init(after), xs[..i]).hosts[h]);
    TickCovers(after, xs, i);
    AfterStays(Init(after), xs);
    ListedAsHeard(after, xs, i, e);
  }

  /** In every run: host_offline comes into the firing map only when the watcher looks at the host, and the
      host had been silent for too long when that tick began. */
  lemma {:induction false} FiringMeansSilence(after: U64, xs: seq<Action>, x: Action, h: string) returns (i: nat)
    requires AllGenuine(xs) && Genuine(x) && BarFree(h)
    requires var s := Run(Init(after), xs); OfflineFp(h) !in s.firing && OfflineFp(h) in Do(s, x).firing
    ensures x == Watch && LastTick(after, xs, i)
    ensures TooLong(SilenceAt(after, xs, i, h), after)
  {
    var s, k := Run(Init(after), xs), OfflineFp(h);
    W.GenuineApart(xs, h);
    W.GenuineApart([x], h);
    assert x in [x];
    W.WatchedThroughout(Init(after), xs, h, k);
    W.OnlyThese(s, x, h, k);
    W.RaisedOnVerdict(s, h, k);
    i := OfflineMeansSilence(after, xs);
  }
}
