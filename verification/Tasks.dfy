/** The collector's tasks as they are written, each run without interruption, against the interleaved
    machine: collector/src/ws_ingest.rs, syslog_in.rs, http.rs and the offline watcher of main.rs. */
module Tasks {
  import opened Basics
  import opened Shared
  import opened Collector
  import X = Transport

  function IngestSteps(t: nat, a: Alert): seq<Action> { [IngestTouch(t, a), IngestApply(t), BumpEnd(t), Send(t)] }

  /** What the connection task does with one message. */
  function MessageSteps(t: nat, m: X.Outbound): seq<Action> {
    match m
    case Hello(id, name, startedAt, maintenance) => [Action.Hello(id, name, startedAt, maintenance)]
    case Heartbeat(id, name, ts) => [Action.Heartbeat(id, name, ts)]
    case AlertMsg(a) => IngestSteps(t, a)
  }

  /** The record of a host, or the one that it would start with. */
  function RecordOf(hosts: Hosts, id: string, first: Host): Host { if id in hosts then hosts[id] else first }

  /** What a frame does when it is read, message by message and field by field. */
  lemma {:induction false} FrameRead(s: State, t: nat, m: X.Outbound)
    requires t !in s.tasks && t != WATCHER
    ensures var u := Do(s, MessageSteps(t, m)[0]);
            match m
            case Hello(id, name, startedAt, maintenance) =>
              var h := RecordOf(s.hosts, id, Host(name, startedAt, 0, maintenance));
              u == s.(hosts := s.hosts[id := Host(name, h.lastSeen, h.count, maintenance)])
            case Heartbeat(id, name, ts) =>
              var h := RecordOf(s.hosts, id, Host(name, ts, 0, false));
              u == s.(hosts := s.hosts[id := Host(name, ts, h.count, h.maintenance)])
            case AlertMsg(a) =>
              var h := RecordOf(s.hosts, a.hostId, Host(a.host, a.ts, 0, false));
              if h.maintenance then u == s
              else u == s.(hosts := s.hosts[a.hostId := Host(a.host, a.ts, h.count, false)],
                           tasks := s.tasks[t := Touched(a)])
  {
  }

  function SocketSteps(t: nat, ms: seq<X.Outbound>): seq<Action> {
    if ms == [] then [] else SocketSteps(t, ms[..|ms| - 1]) + MessageSteps(t, ms[|ms| - 1])
  }

  function SyslogSteps(t: nat, a: Alert): seq<Action> { [SyslogApply(t, a), BumpEnd(t), Send(t)] }

  function ResolveSteps(t: nat, fp: string, now: int): seq<Action> {
    [ResolveBegin(t, fp, now), ResolveEnd(t), Send(t)]
  }

  /** One host of a tick. */
  const WATCHED: seq<Action> := [Watch, BumpEnd(WATCHER), Send(WATCHER)]

  /** A tick that has come to look at k hosts of its list. */
  function TickSteps(list: seq<(string, Host)>, now: int, k: nat): seq<Action> {
    if k == 0 then [TickBegin(list, now)] else TickSteps(list, now, k - 1) + WATCHED
  }

  // ---- The machine with one task at a time ----

  /** The state after a task has come and gone: the change it made, counted and broadcast. */
  function Leaving(s: State, firing: Firings, a: Alert, delta: int): State {
    Counted(s, a.hostId, delta).(firing := firing, tasks := map[], changes := s.changes + [a], sent := s.sent + [a])
  }

  /** A repeat of a firing alert leaves the counter alone. */
  function Repeating(s: State, a: Alert): State {
    s.(firing := Put(s.firing, a), tasks := map[], changes := s.changes + [a], sent := s.sent + [a])
  }

  lemma SendAlone(s: State, t: nat, a: Alert)
    requires s.tasks == map[t := Broadcasting(a)]
    ensures Do(s, Send(t)) == s.(tasks := map[], sent := s.sent + [a])
    ensures Do(s, BumpEnd(t)) == s
  {
    assert s.tasks - {t} == map[];
  }

  /** A change by `apply_alert`, once made, is counted and broadcast. */
  lemma {:induction false} CountAndSend(s: State, t: nat, a: Alert, delta: int)
    requires s.tasks == map[t := Bumping(a, delta)]
    ensures Do(Do(s, BumpEnd(t)), Send(t)) == Counted(s, a.hostId, delta).(tasks := map[], sent := s.sent + [a])
  {
    var u := Do(s, BumpEnd(t));
    assert u.tasks == map[t := Broadcasting(a)];
    SendAlone(u, t, a);
  }

  /** So is an operator's resolve. */
  lemma {:induction false} DecrementAndSend(s: State, t: nat, a: Alert)
    requires s.tasks == map[t := Decrementing(a)]
    ensures Do(Do(s, ResolveEnd(t)), Send(t)) == Counted(s, a.hostId, -1).(tasks := map[], sent := s.sent + [a])
  {
    var u := EndResolve(s, t);
    assert Do(s, ResolveEnd(t)) == u;
    assert u.tasks == map[t := Broadcasting(a)];
    SendAlone(u, t, a);
  }

  /** What `apply_alert` and the broadcast after it leave, by the only task there is. */
  function Applied(s: State, a: Alert): State {
    if !Changed(s.firing, a) then s.(tasks := map[])
    else if Delta(s.firing, a) == 0 then Repeating(s, a)
    else Leaving(s, Put(s.firing, a), a, Delta(s.firing, a))
  }

  lemma {:induction false} ApplyThrough(s: State, t: nat, a: Alert)
    requires s.tasks == map[] || s.tasks == map[t := Touched(a)]
    ensures Do(Do(Apply(s, t, a), BumpEnd(t)), Send(t)) == Applied(s, a)
  {
    var u := Apply(s, t, a);
    if !Changed(s.firing, a) {
      assert u.tasks == map[];
    } else {
      assert u.tasks == map[t := u.tasks[t]];
      if Delta(s.firing, a) == 0 { SendAlone(u, t, a); } else { CountAndSend(u, t, a, Delta(s.firing, a)); }
    }
  }

  lemma {:induction false} IngestAlone(s: State, t: nat, a: Alert)
    requires s.tasks == map[] && t != WATCHER
    ensures Run(s, IngestSteps(t, a)) ==
            if InMaintenance(s.hosts, a.hostId) then s
            else Applied(s.(hosts := Collector.Touch(s.hosts, a.host, a.hostId, a.ts)), a)
  {
    FourActions(s, IngestTouch(t, a), IngestApply(t), BumpEnd(t), Send(t));
    if !InMaintenance(s.hosts, a.hostId) {
      var u := Do(s, IngestTouch(t, a));
      var v := s.(hosts := Collector.Touch(s.hosts, a.host, a.hostId, a.ts));
      assert u == v.(tasks := map[t := Touched(a)]);
      assert Do(u, IngestApply(t)) == Apply(u, t, a);
      ApplyThrough(u, t, a);
      assert Applied(u, a) == Applied(v, a);
    }
  }

  lemma {:induction false} SyslogAlone(s: State, t: nat, a: Alert)
    requires s.tasks == map[] && t != WATCHER
    ensures Run(s, SyslogSteps(t, a)) == Applied(Introduce(s, a.hostId), a)
  {
    ThreeActions(s, SyslogApply(t, a), BumpEnd(t), Send(t));
    ApplyThrough(Introduce(s, a.hostId), t, a);
  }

  lemma {:induction false} ResolveAlone(s: State, t: nat, fp: string, now: int)
    requires s.tasks == map[] && t != WATCHER
    ensures Run(s, ResolveSteps(t, fp, now)) ==
            if fp !in s.firing then s else Leaving(s, s.firing - {fp}, ClosedBy(s.firing[fp], now), -1)
  {
    ThreeActions(s, ResolveBegin(t, fp, now), ResolveEnd(t), Send(t));
    if fp in s.firing {
      var a := ClosedBy(s.firing[fp], now);
      var u := Do(s, ResolveBegin(t, fp, now));
      assert u == s.(firing := s.firing - {fp}, changes := s.changes + [a], tasks := map[t := Decrementing(a)]);
      DecrementAndSend(u, t, a);
    }
  }

  /** One host of a tick. */
  function WatchedAlone(s: State, h: (string, Host), now: int): State {
    var id, online := h.0, Online(now, h.1.lastSeen, s.after);
    var u := Judged(s, id, online);
    if id in s.lastOnline && s.lastOnline[id] == online then s
    else if !online then Applied(u, OfflineAlert(h.1.name, id, now))
    else Recovered(u, id, now)
  }

  /** The watcher takes a host_offline alert out, if there is one, and tells. */
  function Recovered(s: State, id: string, now: int): State {
    var fp := OfflineFp(id);
    if fp !in s.firing then s
    else
      var a := s.firing[fp].(state := Resolved, ts := now);
      s.(firing := s.firing - {fp}, changes := s.changes + [a], sent := s.sent + [a], drift := s.drift + multiset{id})
  }

  lemma {:induction false} WatchAlone(s: State)
    requires s.tasks == map[] && s.tick.left != [] && s.tick.left[0].0 in s.hosts
    ensures Run(s, WATCHED) == WatchedAlone(Popped(s), s.tick.left[0], s.tick.now)
  {
    var h, now, p := s.tick.left[0], s.tick.now, Popped(s);
    var id, name, online := h.0, h.1.name, Online(now, h.1.lastSeen, s.after);
    ThreeActions(s, Watch, BumpEnd(WATCHER), Send(WATCHER));
    var u := Judged(p, id, online);
    if !(id in s.lastOnline && s.lastOnline[id] == online) {
      if !online {
        ApplyThrough(u, WATCHER, OfflineAlert(name, id, now));
      } else if OfflineFp(id) in s.firing {
        var a := s.firing[OfflineFp(id)].(state := Resolved, ts := now);
        var v := Remove(u, WATCHER, OfflineFp(id), a, Broadcasting(a)).(drift := s.drift + multiset{id});
        assert v.tasks == map[WATCHER := Broadcasting(a)];
        SendAlone(v, WATCHER, a);
      }
    }
  }

  // ---- The tasks ----

  /** The object stands where the machine stands; `before` is what had been broadcast at the machine's start. */
  ghost predicate Mirrors(app: AppState, s: State, before: seq<Alert>)
    reads app
  {
    && app.firing == s.firing && app.hosts == s.hosts && app.offlineAfter == s.after
    && s.tasks == map[] && app.fanout == before + s.sent
  }

  /** `apply_alert` of a firing alert, which is always worth a broadcast. */
  method ApplyFiring(app: AppState, a: Alert, ghost s: State, ghost before: seq<Alert>)
    requires Mirrors(app, s, before) && a.state == Firing
    modifies app
    ensures Mirrors(app, Applied(s, a), before)
  {
    Regroup(before, s.sent, [a]);
    var _ := app.ApplyAlert(a);
    BumpNothing(s.hosts, a.hostId);
    app.Broadcast(a);
  }

  lemma BumpNothing(hosts: Hosts, id: string)
    ensures Bump(hosts, id, 0) == hosts
  {
    if id in hosts { assert hosts[id].(count := hosts[id].count) == hosts[id]; }
  }

  /** The alert case of the agents' receive loop. */
  method IngestAlert(app: AppState, a: Alert, ghost t: nat, ghost s: State, ghost before: seq<Alert>)
    requires Mirrors(app, s, before) && t != WATCHER
    modifies app
    ensures Mirrors(app, Run(s, IngestSteps(t, a)), before)
  {
    IngestAlone(s, t, a);
    Regroup(before, s.sent, [a]);
    if a.hostId in app.hosts && app.hosts[a.hostId].maintenance { return; }
    app.TouchHost(a.host, a.hostId, a.ts);
    var changed := app.ApplyAlert(a);
    if changed { app.Broadcast(a); }
  }

  /** The receive loop of one agent's connection. */
  method HandleSocket(app: AppState, ms: seq<X.Outbound>, ghost t: nat, ghost s: State, ghost before: seq<Alert>)
    requires Mirrors(app, s, before) && t != WATCHER
    modifies app
    ensures Mirrors(app, Run(s, SocketSteps(t, ms)), before)
  {
    for i := 0 to |ms|
      invariant Mirrors(app, Run(s, SocketSteps(t, ms[..i])), before)
    {
      assert ms[..i + 1][..i] == ms[..i];
      ghost var u := Run(s, SocketSteps(t, ms[..i]));
      RunConcat(s, SocketSteps(t, ms[..i]), MessageSteps(t, ms[i]));
      match ms[i] {
        case Hello(id, name, startedAt, maintenance) =>
          OneAction(u, Action.Hello(id, name, startedAt, maintenance));
          app.RegisterHello(id, name, startedAt, maintenance);
        case Heartbeat(id, name, ts) =>
          OneAction(u, Action.Heartbeat(id, name, ts));
          app.TouchHost(name, id, ts);
        case AlertMsg(a) => IngestAlert(app, a, t, u, before);
      }
    }
    assert ms[..|ms|] == ms;
  }

  /** `handle_line`, once the line is parsed: syslog alerts are firing ones, and always broadcast. */
  method SyslogLine(app: AppState, a: Alert, ghost t: nat, ghost s: State, ghost before: seq<Alert>)
    requires Mirrors(app, s, before) && t != WATCHER && a.state == Firing
    modifies app
    ensures Mirrors(app, Run(s, SyslogSteps(t, a)), before)
  {
    SyslogAlone(s, t, a);
    ApplyFiring(app, a, Introduce(s, a.hostId), before);
  }

  /** `api_resolve`. */
  method ApiResolve(app: AppState, fp: string, now: int, ghost t: nat, ghost s: State, ghost before: seq<Alert>)
    returns (found: bool)
    requires Mirrors(app, s, before) && t != WATCHER
    modifies app
    ensures found <==> fp in old(app.firing)
    ensures Mirrors(app, Run(s, ResolveSteps(t, fp, now)), before)
  {
    ResolveAlone(s, t, fp, now);
    var resolved := app.TakeFiring(fp, now);
    found := resolved.Some?;
    if found {
      Regroup(before, s.sent, [resolved.value]);
      app.DropOne(resolved.value.hostId);
      app.Broadcast(resolved.value);
    }
  }

  /** The watcher's resolve: `g.remove` and broadcast. */
  method ResolveOffline(app: AppState, id: string, now: int, ghost s: State, ghost before: seq<Alert>)
    requires Mirrors(app, s, before)
    modifies app
    ensures Mirrors(app, Recovered(s, id, now), before)
  {
    var fp := OfflineFp(id);
    if fp in app.firing {
      var a := app.firing[fp].(state := Resolved, ts := now);
      Regroup(before, s.sent, [a]);
      app.firing := app.firing - {fp};
      app.Broadcast(a);
    }
  }

  /** What the watcher does about a host whose verdict is news. */
  method Act(app: AppState, h: (string, Host), now: int, online: bool, ghost s: State, ghost before: seq<Alert>)
    requires Mirrors(app, s, before)
    modifies app
    ensures var u := if online then Recovered(s, h.0, now) else Applied(s, OfflineAlert(h.1.name, h.0, now));
            Mirrors(app, u, before)
  {
    if !online {
      ApplyFiring(app, OfflineAlert(h.1.name, h.0, now), s, before);
    } else {
      ResolveOffline(app, h.0, now, s, before);
    }
  }

  lemma {:induction false} WatchedKeeps(s: State, h: (string, Host), now: int)
    ensures WatchedAlone(s, h, now).tick == s.tick
    ensures forall id <- s.hosts :: id in WatchedAlone(s, h, now).hosts
  {
  }

  /** The watcher's own map and its HostStatus broadcasts. */
  class OfflineWatcher {
    var lastSeenOnline: map<string, bool>
    var statuses: seq<Verdict>

    ghost predicate Follows(s: State, earlier: seq<Verdict>)
      reads this
    {
      lastSeenOnline == s.lastOnline && statuses == earlier + s.status
    }

    constructor ()
      ensures lastSeenOnline == map[] && statuses == []
    {
      lastSeenOnline, statuses := map[], [];
    }

    /** One host of a tick. */
    method Judge(app: AppState, h: (string, Host), now: int,
                 ghost s: State, ghost before: seq<Alert>, ghost earlier: seq<Verdict>)
      requires Mirrors(app, s, before) && Follows(s, earlier)
      modifies this, app
      ensures Mirrors(app, WatchedAlone(s, h, now), before) && Follows(WatchedAlone(s, h, now), earlier)
    {
      var id := h.0;
      var online := Online(now, h.1.lastSeen, app.offlineAfter);
      var known := id in lastSeenOnline && lastSeenOnline[id] == online;
      lastSeenOnline := lastSeenOnline[id := online];
      if known { return; }
      statuses := statuses + [Verdict(id, online)];
      Act(app, h, now, online, Judged(s, id, online), before);
    }

    /** One tick, over the list of all hosts taken at its start. */
    method Tick(app: AppState, list: seq<(string, Host)>, now: int,
                ghost s: State, ghost before: seq<Alert>, ghost earlier: seq<Verdict>)
      requires Mirrors(app, s, before) && Follows(s, earlier) && s.tick.left == [] && HostList(list, app.hosts)
      modifies this, app
      ensures var u := Run(s, TickSteps(list, now, |list|));
              Mirrors(app, u, before) && Follows(u, earlier) && u.tick.left == []
    {
      ghost var u := Do(s, TickBegin(list, now));
      OneAction(s, TickBegin(list, now));
      for i := 0 to |list|
        invariant u == Run(s, TickSteps(list, now, i)) && Mirrors(app, u, before) && Follows(u, earlier)
        invariant u.tick == Collector.Tick.Tick(now, list[i..]) && forall h <- list :: h.0 in u.hosts
      {
        WatchAlone(u);
        WatchedKeeps(Popped(u), list[i], now);
        RunConcat(s, TickSteps(list, now, i), WATCHED);
        Judge(app, list[i], now, Popped(u), before, earlier);
        u := WatchedAlone(Popped(u), list[i], now);
      }
    }
  }
}
