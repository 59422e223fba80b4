/** The collector's shared state and the tasks that change it: collector/src/state.rs, ws_ingest.rs,
    syslog_in.rs, http.rs and the offline watcher of main.rs. */
module Collector {
  import opened Basics
  import opened Shared

  datatype Host = Host(name: string, lastSeen: int, count: nat, maintenance: bool)

  type Firings = map<string, Alert>

  type Hosts = map<string, Host>

  // ---- What each access to a map does ----

  function Put(firing: Firings, a: Alert): Firings {
    if a.state == Firing then firing[a.fingerprint := a] else firing - {a.fingerprint}
  }

  predicate Changed(firing: Firings, a: Alert) {
    a.state == Firing || a.fingerprint in firing
  }

  function Delta(firing: Firings, a: Alert): int {
    if a.state == Firing && a.fingerprint !in firing then 1
    else if a.state == Resolved && a.fingerprint in firing then -1
    else 0
  }

  function Bump(hosts: Hosts, id: string, delta: int): Hosts {
    if id in hosts then
      var n := hosts[id].count + delta;
      hosts[id := hosts[id].(count := if n < 0 then 0 else n)]
    else hosts
  }

  function Touch(hosts: Hosts, name: string, id: string, ts: int): Hosts {
    var h := if id in hosts then hosts[id] else Host(name, ts, 0, false);
    hosts[id := h.(lastSeen := ts, name := name)]
  }

  function Register(hosts: Hosts, id: string, name: string, startedAt: int, maintenance: bool): Hosts {
    var h := if id in hosts then hosts[id] else Host(name, startedAt, 0, maintenance);
    hosts[id := h.(name := name, maintenance := maintenance)]
  }

  predicate InMaintenance(hosts: Hosts, id: string) { id in hosts && hosts[id].maintenance }

  // ---- Judging a host offline ----

  const NS := 1_000_000_000

  /** num_seconds of a chrono duration: whole seconds, truncated toward zero. */
  function TruncSeconds(ns: int): int {
    if ns >= 0 then ns / NS else -((-ns) / NS)
  }

  const I64_LIMIT := 0x8000_0000_0000_0000

  /** `after_s as i64`: the upper half of the range wraps around to negative numbers. */
  function AsI64(u: U64): int {
    if u < I64_LIMIT then u else u - 2 * I64_LIMIT
  }

  predicate Online(now: int, lastSeen: int, after: U64) {
    TruncSeconds(now - lastSeen) <= AsI64(after)
  }

  /** How long a silence must be. Second truncation gives every host one more second; a setting that wraps
      around asks for more than a negative number of seconds, and truncation toward zero adds nothing. */
  predicate TooLong(silence: int, after: U64) {
    if after < I64_LIMIT then silence >= (after + 1) * NS else silence > (after - 2 * I64_LIMIT) * NS
  }

  /** A host is judged offline exactly when its silence is too long. */
  lemma OfflineExactly(now: int, lastSeen: int, after: U64)
    ensures !Online(now, lastSeen, after) <==> TooLong(now - lastSeen, after)
  {
  }

  /** A time stamp that is fresh enough at `now`: an agent whose clock agrees, or, for a setting that wraps
      around, is that much ahead. And a later time at which it is too old. */
  function BeatAt(after: U64, now: int): int { if after < I64_LIMIT then now else now - AsI64(after) * NS }

  function OffAt(after: U64, now: int): int { if after < I64_LIMIT then now + (after + 1) * NS else now + 1 }

  const COLLECTOR := "collector"

  function OfflineFp(id: string): string { Fingerprint(id, COLLECTOR, None, "host_offline") }

  function OfflineAlert(name: string, id: string, now: int): Alert {
    Builder(name, id, COLLECTOR, "host_offline", Severity.Critical, None).BuildFiring(now)
  }

  // ---- The shared object ----

  class AppState {
    var firing: Firings
    var hosts: Hosts
    var fanout: seq<Alert>
    const offlineAfter: U64

    constructor (after: U64)
      ensures firing == map[] && hosts == map[] && fanout == [] && offlineAfter == after
    {
      firing, hosts, fanout, offlineAfter := map[], map[], [], after;
    }

    method Broadcast(a: Alert)
      modifies this`fanout
      ensures fanout == old(fanout) + [a]
    {
      fanout := fanout + [a];
    }

    method ApplyAlert(a: Alert) returns (changed: bool)
      modifies this`firing, this`hosts
      ensures a.state == Firing ==> firing == old(firing)[a.fingerprint := a]
      ensures a.state == Resolved ==> firing == old(firing) - {a.fingerprint}
      ensures hosts == Bump(old(hosts), a.hostId, Delta(old(firing), a))
      ensures changed <==> a.state == Firing || a.fingerprint in old(firing)
    {
      assert a.hostId in hosts ==> hosts[a.hostId := hosts[a.hostId]] == hosts;
      if a.state == Firing {
        var wasNew := a.fingerprint !in firing;
        firing := firing[a.fingerprint := a];
        if wasNew {
          BumpHostCount(a.hostId, 1);
        }
        changed := true;
      } else if a.fingerprint in firing {
        firing := firing - {a.fingerprint};
        BumpHostCount(a.hostId, -1);
        changed := true;
      } else {
        changed := false;
      }
    }

    method BumpHostCount(id: string, delta: int)
      modifies this`hosts
      ensures hosts == Bump(old(hosts), id, delta)
    {
      if id in hosts {
        var n := hosts[id].count + delta;
        hosts := hosts[id := hosts[id].(count := if n < 0 then 0 else n)];
      }
    }

    method TouchHost(name: string, id: string, ts: int)
      modifies this`hosts
      ensures hosts == Touch(old(hosts), name, id, ts)
    {
      if id !in hosts {
        hosts := hosts[id := Host(name, ts, 0, false)];
      }
      hosts := hosts[id := hosts[id].(lastSeen := ts, name := name)];
    }

    method RegisterHello(id: string, name: string, startedAt: int, maintenance: bool)
      modifies this`hosts
      ensures hosts == Register(old(hosts), id, name, startedAt, maintenance)
    {
      if id !in hosts {
        hosts := hosts[id := Host(name, startedAt, 0, maintenance)];
      }
      hosts := hosts[id := hosts[id].(name := name, maintenance := maintenance)];
    }

    /** First half of api_resolve, under the firing lock. */
    method TakeFiring(fp: string, now: int) returns (resolved: Option<Alert>)
      modifies this`firing
      ensures fp !in old(firing) ==> resolved == None && firing == old(firing)
      ensures fp in old(firing) ==>
                && resolved == Some(old(firing)[fp].(state := Resolved, lastSeen := now, ts := now))
                && firing == old(firing) - {fp}
    {
      if fp !in firing { return None; }
      var a := firing[fp];
      firing := firing - {fp};
      resolved := Some(a.(state := Resolved, lastSeen := now, ts := now));
    }

    /** Second half of api_resolve, under the hosts lock. */
    method DropOne(id: string)
      modifies this`hosts
      ensures hosts == Bump(old(hosts), id, -1)
    {
      if id in hosts {
        if hosts[id].count > 0 {
          hosts := hosts[id := hosts[id].(count := hosts[id].count - 1)];
        } else {
          assert hosts[id := hosts[id]] == hosts;
        }
      }
    }
  }

  function ClosedBy(a: Alert, now: int): Alert { a.(state := Resolved, lastSeen := now, ts := now) }

  // ---- The machine: any number of tasks, interleaved at the points where they hold no lock ----

  /** Where a task stands. `Bumping` is inside `apply_alert`, still holding the firing lock. */
  datatype Pc =
    | Touched(a: Alert)
    | Bumping(a: Alert, delta: int)
    | Decrementing(a: Alert)
    | Broadcasting(a: Alert)

  datatype Verdict = Verdict(id: string, online: bool)

  type Tasks = map<nat, Pc>

  /** A tick of the watcher: its clock reading, and the hosts of its list that it has still to look at, as
      they were when the list was taken. */
  datatype Tick = Tick(now: int, left: seq<(string, Host)>)

  /** The records of all hosts, in some order. */
  ghost predicate HostList(list: seq<(string, Host)>, hosts: Hosts) {
    && (forall e <- list :: e.0 in hosts && hosts[e.0] == e.1)
    && (forall id <- hosts :: (id, hosts[id]) in list)
    && (forall i, j :: 0 <= i < j < |list| ==> list[i].0 != list[j].0)
  }

  /** The fields from `strangers` on are records of the run: host ids that a syslog alert came in for while
      they were not registered; changes of theirs that the counter never saw (insertions less removals);
      host_offline alerts resolved by the watcher; changes to the firing map in order; alerts broadcast in
      order; and the watcher's HostStatus broadcasts. */
  datatype State = State(
    firing: Firings, hosts: Hosts, tasks: Tasks, lastOnline: map<string, bool>, tick: Tick, after: U64,
    strangers: set<string>, lost: multiset<string>, drift: multiset<string>,
    changes: seq<Alert>, sent: seq<Alert>, status: seq<Verdict>)

  function Init(after: U64): State {
    State(map[], map[], map[], map[], Tick(0, []), after, {}, multiset{}, multiset{}, [], [], [])
  }

  /** The offline watcher is one loop: a single task, which finishes with a host before it looks at the next,
      and with a tick before it begins another. */
  const WATCHER: nat := 1

  datatype Action =
    | Hello(id: string, name: string, startedAt: int, maintenance: bool)
    | Heartbeat(id: string, name: string, ts: int)
    | IngestTouch(t: nat, a: Alert)
    | IngestApply(t: nat)
    | SyslogApply(t: nat, a: Alert)
    | BumpEnd(t: nat)
    | ResolveBegin(t: nat, fp: string, now: int)
    | ResolveEnd(t: nat)
    | TickBegin(list: seq<(string, Host)>, now: int)
    | Watch
    | Send(t: nat)

  ghost predicate FiringFree(s: State) {
    forall t <- s.tasks :: !s.tasks[t].Bumping?
  }

  ghost predicate Enabled(s: State, x: Action) {
    match x
    case Hello(_, _, _, _) => true
    case Heartbeat(_, _, _) => true
    case IngestTouch(t, _) => t !in s.tasks && t != WATCHER
    case IngestApply(t) => t in s.tasks && s.tasks[t].Touched? && FiringFree(s)
    case SyslogApply(t, _) => t !in s.tasks && t != WATCHER && FiringFree(s)
    case BumpEnd(t) => t in s.tasks && s.tasks[t].Bumping?
    case ResolveBegin(t, fp, _) => t !in s.tasks && t != WATCHER && fp in s.firing && FiringFree(s)
    case ResolveEnd(t) => t in s.tasks && s.tasks[t].Decrementing?
    case TickBegin(list, _) => WATCHER !in s.tasks && s.tick.left == [] && HostList(list, s.hosts)
    case Watch => WATCHER !in s.tasks && s.tick.left != [] && s.tick.left[0].0 in s.hosts && FiringFree(s)
    case Send(t) => t in s.tasks && s.tasks[t].Broadcasting?
  }

  /** Task t runs `apply_alert` up to the point where it wants the hosts lock. */
  function Apply(s: State, t: nat, a: Alert): State {
    if !Changed(s.firing, a) then s.(tasks := s.tasks - {t})
    else s.(firing := Put(s.firing, a),
            changes := s.changes + [a],
            tasks := s.tasks[t := if Delta(s.firing, a) != 0 then Bumping(a, Delta(s.firing, a)) else Broadcasting(a)])
  }

  /** Task t removes a firing alert without `apply_alert`. */
  function Remove(s: State, t: nat, fp: string, a: Alert, pc: Pc): State {
    s.(firing := s.firing - {fp}, changes := s.changes + [a], tasks := s.tasks[t := pc])
  }

  /** The watcher changes its mind about a host. */
  function Judged(s: State, id: string, online: bool): State {
    s.(lastOnline := s.lastOnline[id := online], status := s.status + [Verdict(id, online)])
  }

  function WatchHost(s: State, id: string, name: string, seen: int, now: int): State
    requires id in s.hosts
  {
    var online := Online(now, seen, s.after);
    if id in s.lastOnline && s.lastOnline[id] == online then s
    else
      var u := Judged(s, id, online);
      var fp := OfflineFp(id);
      if !online then Apply(u, WATCHER, OfflineAlert(name, id, now))
      else if fp in s.firing then
        var a := s.firing[fp].(state := Resolved, ts := now);
        Remove(u, WATCHER, fp, a, Broadcasting(a)).(drift := s.drift + multiset{id})
      else u
  }

  /** The tick without the host it looks at now. */
  function Popped(s: State): State
    requires s.tick.left != []
  {
    s.(tick := s.tick.(left := s.tick.left[1..]))
  }

  function WatchNext(s: State): State
    requires s.tick.left != [] && s.tick.left[0].0 in s.hosts
  {
    var h := s.tick.left[0];
    WatchHost(Popped(s), h.0, h.1.name, h.1.lastSeen, s.tick.now)
  }

  /** What the counter does not see of a change: anything about an unregistered host, and a decrement of zero. */
  function Lost(hosts: Hosts, id: string, delta: int, lost: multiset<string>): multiset<string> {
    if delta > 0 then if id in hosts then lost else lost + multiset{id}
    else if id in hosts && hosts[id].count > 0 then lost
    else lost - multiset{id}
  }

  function Counted(s: State, id: string, delta: int): State {
    s.(hosts := Bump(s.hosts, id, delta), lost := Lost(s.hosts, id, delta, s.lost))
  }

  /** A syslog alert makes its sender a stranger unless it is registered. */
  function Introduce(s: State, id: string): State {
    s.(strangers := if id in s.hosts then s.strangers else s.strangers + {id})
  }

  /** Task t counts the change it has made and lets go of both locks. */
  function EndBump(s: State, t: nat): State
    requires t in s.tasks && s.tasks[t].Bumping?
  {
    var pc := s.tasks[t];
    Counted(s, pc.a.hostId, pc.delta).(tasks := s.tasks[t := Broadcasting(pc.a)])
  }

  /** Second half of api_resolve. */
  function EndResolve(s: State, t: nat): State
    requires t in s.tasks && s.tasks[t].Decrementing?
  {
    var a := s.tasks[t].a;
    Counted(s, a.hostId, -1).(tasks := s.tasks[t := Broadcasting(a)])
  }

  function BeginResolve(s: State, t: nat, fp: string, now: int): State
    requires fp in s.firing
  {
    var a := ClosedBy(s.firing[fp], now);
    Remove(s, t, fp, a, Decrementing(a))
  }

  function BeginIngest(s: State, t: nat, a: Alert): State {
    if InMaintenance(s.hosts, a.hostId) then s
    else s.(hosts := Touch(s.hosts, a.host, a.hostId, a.ts), tasks := s.tasks[t := Touched(a)])
  }

  ghost function Do(s: State, x: Action): State {
    if !Enabled(s, x) then s
    else
      match x
      case Hello(id, name, startedAt, maintenance) => s.(hosts := Register(s.hosts, id, name, startedAt, maintenance))
      case Heartbeat(id, name, ts) => s.(hosts := Touch(s.hosts, name, id, ts))
      case IngestTouch(t, a) => BeginIngest(s, t, a)
      case IngestApply(t) => Apply(s, t, s.tasks[t].a)
      case SyslogApply(t, a) => Apply(Introduce(s, a.hostId), t, a)
      case BumpEnd(t) => EndBump(s, t)
      case ResolveBegin(t, fp, now) => BeginResolve(s, t, fp, now)
      case ResolveEnd(t) => EndResolve(s, t)
      case TickBegin(list, now) => s.(tick := Tick(now, list))
      case Watch => WatchNext(s)
      case Send(t) => s.(tasks := s.tasks - {t}, sent := s.sent + [s.tasks[t].a])
  }

  ghost function Run(s: State, xs: seq<Action>): State
    decreases |xs|
  {
    if xs == [] then s else Run(Do(s, xs[0]), xs[1..])
  }

  /** What the agents and the syslog parser put on the wire: well-formed alerts that are not the
      collector's own, bar-free machine ids, and syslog events that are never resolves. */
  predicate Genuine(x: Action) {
    match x
    case Hello(id, _, _, _) => BarFree(id)
    case Heartbeat(id, _, _) => BarFree(id)
    case IngestTouch(_, a) => WellFormed(a) && a.category != COLLECTOR
    case SyslogApply(_, a) => WellFormed(a) && a.category != COLLECTOR && a.state == Firing
    case _ => true
  }

  predicate AllGenuine(xs: seq<Action>) { forall x <- xs :: Genuine(x) }

  predicate OfflineRecorded(s: State, h: string) { h in s.lastOnline && !s.lastOnline[h] }

  ghost predicate KeysFit(firing: Firings) {
    forall fp <- firing :: firing[fp].fingerprint == fp
  }

  lemma FiringLeftAlone(s: State, x: Action)
    requires !x.IngestApply? && !x.SyslogApply? && !x.ResolveBegin? && !x.Watch?
    ensures Do(s, x).firing == s.firing
  {
  }

  lemma TasksLeftAlone(s: State, x: Action)
    requires x.Hello? || x.Heartbeat? || x.TickBegin?
    ensures Do(s, x).tasks == s.tasks
  {
  }

  // ---- Changes and their broadcasts ----

  /** Task t has changed the firing map for fp and not yet broadcast it. */
  ghost predicate Pending(tasks: Tasks, t: nat, fp: string) {
    t in tasks && !tasks[t].Touched? && tasks[t].a.fingerprint == fp
  }

  ghost predicate Settled(tasks: Tasks, fp: string) { forall t <- tasks :: !Pending(tasks, t, fp) }

  /** The step does not take fp in or out while a broadcast about it is pending. */
  ghost predicate InTurn(s: State, x: Action, fp: string) {
    (fp in Do(s, x).firing <==> fp in s.firing) || Settled(s.tasks, fp)
  }

  ghost predicate AllInTurn(s: State, xs: seq<Action>, fp: string)
    decreases |xs|
  {
    xs == [] || (InTurn(s, xs[0], fp) && AllInTurn(Do(s, xs[0]), xs[1..], fp))
  }

  lemma OneAction(s: State, x: Action)
    ensures Run(s, [x]) == Do(s, x)
  {
    assert [x][1..] == [];
  }

  lemma ThreeActions(s: State, a: Action, b: Action, c: Action)
    ensures Run(s, [a, b, c]) == Do(Do(Do(s, a), b), c)
  {
    assert [a, b, c] == [a] + [b] + [c];
    RunConcat(s, [a] + [b], [c]);
    RunConcat(s, [a], [b]);
    OneAction(s, a);
    OneAction(Do(s, a), b);
    OneAction(Do(Do(s, a), b), c);
  }

  lemma FourActions(s: State, a: Action, b: Action, c: Action, d: Action)
    ensures Run(s, [a, b, c, d]) == Do(Do(Do(Do(s, a), b), c), d)
  {
    assert [a, b, c, d] == [a] + [b, c, d];
    RunConcat(s, [a], [b, c, d]);
    OneAction(s, a);
    ThreeActions(Do(s, a), b, c, d);
  }

  lemma {:induction false} RunConcat(s: State, xs: seq<Action>, ys: seq<Action>)
    ensures Run(s, xs + ys) == Run(Run(s, xs), ys)
    decreases |xs|
  {
    if xs == [] {
      assert xs + ys == ys;
    } else {
      assert (xs + ys)[1..] == xs[1..] + ys;
      RunConcat(Do(s, xs[0]), xs[1..], ys);
    }
  }

  lemma RunSnoc(s: State, xs: seq<Action>)
    requires xs != []
    ensures Run(s, xs) == Do(Run(s, xs[..|xs| - 1]), xs[|xs| - 1])
  {
    var before, x := xs[..|xs| - 1], xs[|xs| - 1];
    assert xs == before + [x];
    RunConcat(s, before, [x]);
    OneAction(Run(s, before), x);
  }

  /** The hosts left of a tick are known ones, each left once: so the watcher is never held up by its list. */
  ghost predicate TickFits(s: State) {
    && (forall e <- s.tick.left :: e.0 in s.hosts)
    && (forall i, j :: 0 <= i < j < |s.tick.left| ==> s.tick.left[i].0 != s.tick.left[j].0)
  }

  lemma {:induction false} HostsStay(s: State, x: Action)
    ensures forall id <- s.hosts :: id in Do(s, x).hosts
  {
  }

  lemma {:induction false} TickStep(s: State, x: Action)
    requires TickFits(s)
    ensures TickFits(Do(s, x))
  {
    HostsStay(s, x);
    TickMoves(s, x);
  }

  lemma {:induction false} TickMoves(s: State, x: Action)
    ensures Do(s, x).tick ==
            if x.TickBegin? && Enabled(s, x) then Tick(x.now, x.list)
            else if x.Watch? && Enabled(s, x) then Popped(s).tick
            else s.tick
  {
  }

  lemma {:induction false} TickThroughout(s: State, xs: seq<Action>)
    requires TickFits(s)
    ensures TickFits(Run(s, xs))
    decreases |xs|
  {
    if xs != [] {
      TickStep(s, xs[0]);
      TickThroughout(Do(s, xs[0]), xs[1..]);
    }
  }
}
