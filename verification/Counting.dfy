/** The per-host firing counter against the firing map, at every interleaved state of the collector. */
module Counting {
  import opened Basics
  import opened Shared
  import opened Collector

  // ---- Shape of reachable states ----

  /** `hostOf` reads the host id off a fingerprint; it is a parameter, so that nothing below looks into strings. */
  ghost predicate FiringShape(firing: Firings, hostOf: string -> string) {
    forall fp <- firing :: firing[fp].fingerprint == fp && firing[fp].hostId == hostOf(fp)
  }

  ghost predicate TaskShape(tasks: Tasks, hostOf: string -> string) {
    forall t <- tasks :: tasks[t].a.hostId == hostOf(tasks[t].a.fingerprint)
  }

  /** The firing lock is held by at most one task, and while an insertion waits to be counted its key stays. */
  ghost predicate LockShape(tasks: Tasks, firing: Firings) {
    && (forall t, u :: t in tasks && u in tasks && tasks[t].Bumping? && tasks[u].Bumping? ==> t == u)
    && (forall t <- tasks :: tasks[t].Bumping? ==>
          && (tasks[t].delta == 1 || tasks[t].delta == -1)
          && (tasks[t].delta == 1 ==> tasks[t].a.fingerprint in firing))
  }

  /** Every host with something to count is registered, or a stranger, and only strangers' changes get lost. */
  ghost predicate Known(s: State) {
    && (forall fp <- s.firing :: s.firing[fp].hostId in s.hosts || s.firing[fp].hostId in s.strangers)
    && (forall t <- s.tasks :: s.tasks[t].a.hostId in s.hosts || s.tasks[t].a.hostId in s.strangers)
    && (forall id <- s.lost :: id in s.strangers)
  }

  ghost predicate Shape(s: State, hostOf: string -> string) {
    && FiringShape(s.firing, hostOf)
    && TaskShape(s.tasks, hostOf)
    && LockShape(s.tasks, s.firing)
    && Known(s)
    && (forall id <- s.hosts :: hostOf(OfflineFp(id)) == id)
  }

  /** The alerts and host ids that an action brings in are read correctly by `hostOf`. */
  ghost predicate Owned(x: Action, hostOf: string -> string) {
    match x
    case Hello(id, _, _, _) => hostOf(OfflineFp(id)) == id
    case Heartbeat(id, _, _) => hostOf(OfflineFp(id)) == id
    case IngestTouch(_, a) => hostOf(a.fingerprint) == a.hostId && hostOf(OfflineFp(a.hostId)) == a.hostId
    case SyslogApply(_, a) => hostOf(a.fingerprint) == a.hostId
    case _ => true
  }

  // ---- What is counted ----

  /** Keys of a host in the firing map. */
  ghost function KeysOf(firing: Firings, h: string): set<string> {
    set fp | fp in firing && firing[fp].hostId == h
  }

  /** Operator resolves of a host between the removal and the decrement. */
  ghost function Removing(tasks: Tasks, h: string): set<nat> {
    set t | t in tasks && IsRemoving(tasks[t], h)
  }

  predicate IsRemoving(pc: Pc, h: string) { pc.Decrementing? && pc.a.hostId == h }

  /** Tasks of a host inside `apply_alert` that have changed the map and not yet the counter. */
  ghost function Counting(tasks: Tasks, h: string, delta: int): set<nat> {
    set t | t in tasks && IsCounting(tasks[t], h, delta)
  }

  predicate IsCounting(pc: Pc, h: string, delta: int) { pc.Bumping? && pc.delta == delta && pc.a.hostId == h }

  function CountOf(hosts: Hosts, h: string): nat { if h in hosts then hosts[h].count else 0 }

  /** Counter plus changes lost plus insertions to be counted = keys + removals to be counted + operator
      resolves under way + host_offline alerts that the watcher has resolved, for it never decrements. */
  ghost predicate Balanced(count: nat, lost: nat, firing: Firings, tasks: Tasks, drift: nat, h: string) {
    count + lost + |Counting(tasks, h, 1)|
      == |KeysOf(firing, h)| + |Counting(tasks, h, -1)| + |Removing(tasks, h)| + drift
  }

  ghost predicate Law(s: State, h: string) {
    Balanced(CountOf(s.hosts, h), s.lost[h], s.firing, s.tasks, s.drift[h], h)
  }

  function One(b: bool): nat { if b then 1 else 0 }

  lemma {:induction false} KeysAfterPut(firing: Firings, a: Alert, h: string, hostOf: string -> string)
    requires FiringShape(firing, hostOf) && hostOf(a.fingerprint) == a.hostId
    ensures |KeysOf(Put(firing, a), h)| == |KeysOf(firing, h)| + if a.hostId == h then Delta(firing, a) else 0
  {
    if a.state == Resolved {
      if a.fingerprint in firing {
        KeysAfterRemove(firing, a.fingerprint, h);
      } else {
        assert KeysOf(firing - {a.fingerprint}, h) == KeysOf(firing, h);
      }
    } else {
      KeysAfterInsert(firing, a, h);
    }
  }

  lemma {:induction false} KeysAfterInsert(firing: Firings, a: Alert, h: string)
    requires a.fingerprint in firing ==> firing[a.fingerprint].hostId == a.hostId
    ensures |KeysOf(firing[a.fingerprint := a], h)|
         == |KeysOf(firing, h)| + One(a.hostId == h && a.fingerprint !in firing)
  {
    var k, l := KeysOf(firing, h), KeysOf(firing[a.fingerprint := a], h);
    if a.hostId == h { assert l == k + {a.fingerprint}; } else { assert l == k; }
  }

  lemma {:induction false} KeysAfterRemove(firing: Firings, fp: string, h: string)
    requires fp in firing
    ensures |KeysOf(firing - {fp}, h)| == |KeysOf(firing, h)| - One(firing[fp].hostId == h)
  {
    var k, l := KeysOf(firing, h), KeysOf(firing - {fp}, h);
    assert l == if firing[fp].hostId == h then k - {fp} else k;
  }

  lemma {:induction false} RemovingAfterSet(tasks: Tasks, t: nat, pc: Pc, h: string)
    ensures |Removing(tasks[t := pc], h)|
         == |Removing(tasks, h)| - One(t in tasks && IsRemoving(tasks[t], h)) + One(IsRemoving(pc, h))
  {
    var r, q := Removing(tasks, h), Removing(tasks[t := pc], h);
    if IsRemoving(pc, h) { assert q == r + {t}; } else { assert q == r - {t}; }
  }

  lemma {:induction false} CountingAfterSet(tasks: Tasks, t: nat, pc: Pc, h: string, d: int)
    ensures |Counting(tasks[t := pc], h, d)|
         == |Counting(tasks, h, d)| - One(t in tasks && IsCounting(tasks[t], h, d)) + One(IsCounting(pc, h, d))
  {
    var c, q := Counting(tasks, h, d), Counting(tasks[t := pc], h, d);
    if IsCounting(pc, h, d) { assert q == c + {t}; } else { assert q == c - {t}; }
  }

  lemma TasksAfterSet(tasks: Tasks, t: nat, pc: Pc, h: string)
    ensures |Removing(tasks[t := pc], h)|
         == |Removing(tasks, h)| - One(t in tasks && IsRemoving(tasks[t], h)) + One(IsRemoving(pc, h))
    ensures |Counting(tasks[t := pc], h, 1)|
         == |Counting(tasks, h, 1)| - One(t in tasks && IsCounting(tasks[t], h, 1)) + One(IsCounting(pc, h, 1))
    ensures |Counting(tasks[t := pc], h, -1)|
         == |Counting(tasks, h, -1)| - One(t in tasks && IsCounting(tasks[t], h, -1)) + One(IsCounting(pc, h, -1))
  {
    RemovingAfterSet(tasks, t, pc, h);
    CountingAfterSet(tasks, t, pc, h, 1);
    CountingAfterSet(tasks, t, pc, h, -1);
  }

  lemma {:induction false} TasksAfterDrop(tasks: Tasks, t: nat, h: string)
    requires t in tasks ==> !tasks[t].Bumping? && !tasks[t].Decrementing?
    ensures Removing(tasks - {t}, h) == Removing(tasks, h)
    ensures forall d :: Counting(tasks - {t}, h, d) == Counting(tasks, h, d)
  {
  }

  /** Within the lock's discipline an insertion that waits to be counted is one of the host's keys. */
  lemma {:induction false} PendingWithinKeys(tasks: Tasks, firing: Firings, h: string, hostOf: string -> string)
    requires LockShape(tasks, firing) && FiringShape(firing, hostOf) && TaskShape(tasks, hostOf)
    ensures |Counting(tasks, h, 1)| <= |KeysOf(firing, h)|
    ensures Counting(tasks, h, -1) != {} ==> Counting(tasks, h, 1) == {}
  {
    if t :| t in Counting(tasks, h, 1) {
      assert Counting(tasks, h, 1) == {t};
      assert {tasks[t].a.fingerprint} <= KeysOf(firing, h);
      CardinalityMonotone({tasks[t].a.fingerprint}, KeysOf(firing, h));
    }
  }

  lemma CardinalityMonotone(x: set<string>, y: set<string>)
    requires x <= y
    ensures |x| <= |y|
  {
    assert y == x + (y - x);
  }

  // ---- One step ----

  lemma {:induction false} ApplyLaw(hostOf: string -> string, s: State, t: nat, a: Alert, h: string)
    requires FiringShape(s.firing, hostOf) && hostOf(a.fingerprint) == a.hostId
    requires t in s.tasks ==> s.tasks[t].Touched?
    requires Law(s, h)
    ensures Law(Apply(s, t, a), h)
  {
    KeysAfterPut(s.firing, a, h, hostOf);
    if Changed(s.firing, a) {
      TasksAfterSet(s.tasks, t, Apply(s, t, a).tasks[t], h);
    } else {
      TasksAfterDrop(s.tasks, t, h);
    }
  }

  lemma {:induction false} RemoveLaw(s: State, t: nat, fp: string, a: Alert, pc: Pc, h: string)
    requires t !in s.tasks && fp in s.firing && pc.a.hostId == s.firing[fp].hostId
    requires pc.Decrementing? || pc.Broadcasting?
    requires Law(s, h)
    ensures Balanced(CountOf(s.hosts, h), s.lost[h], s.firing - {fp}, s.tasks[t := pc],
                     s.drift[h] + One(pc.Broadcasting? && pc.a.hostId == h), h)
  {
    KeysAfterRemove(s.firing, fp, h);
    TasksAfterSet(s.tasks, t, pc, h);
  }

  lemma {:induction false} WatchLaw(hostOf: string -> string, s: State, id: string, name: string,
                                    seen: int, now: int, h: string)
    requires FiringShape(s.firing, hostOf) && WATCHER !in s.tasks && id in s.hosts && hostOf(OfflineFp(id)) == id
    requires Law(s, h)
    ensures Law(WatchHost(s, id, name, seen, now), h)
  {
    var online := Online(now, seen, s.after);
    var fp, b := OfflineFp(id), OfflineAlert(name, id, now);
    if WatchHost(s, id, name, seen, now) != s {
      var u := Judged(s, id, online);
      if !online {
        ApplyLaw(hostOf, u, WATCHER, b, h);
      } else if fp in s.firing {
        var a := s.firing[fp].(state := Resolved, ts := now);
        RemoveLaw(u, WATCHER, fp, a, Broadcasting(a), h);
      }
    }
  }

  /** Counter and lost changes together move by the change, if they can go down when it is a removal. */
  lemma {:induction false} CountedMoves(hosts: Hosts, lost: multiset<string>, id: string, delta: int, h: string)
    requires delta == 1 || delta == -1
    requires id == h && delta < 0 ==> CountOf(hosts, h) + lost[h] > 0
    ensures CountOf(Bump(hosts, id, delta), h) + Lost(hosts, id, delta, lost)[h]
         == CountOf(hosts, h) + lost[h] + if id == h then delta else 0
  {
  }

  lemma {:induction false} EndBumpLaw(hostOf: string -> string, s: State, t: nat, h: string)
    requires LockShape(s.tasks, s.firing) && FiringShape(s.firing, hostOf) && TaskShape(s.tasks, hostOf)
    requires t in s.tasks && s.tasks[t].Bumping?
    requires Law(s, h)
    ensures Law(EndBump(s, t), h)
    ensures s.tasks[t].a.hostId == h && s.tasks[t].delta < 0 ==> CountOf(s.hosts, h) + s.lost[h] > 0
  {
    PendingWithinKeys(s.tasks, s.firing, h, hostOf);
    TasksAfterSet(s.tasks, t, Broadcasting(s.tasks[t].a), h);
    CountedMoves(s.hosts, s.lost, s.tasks[t].a.hostId, s.tasks[t].delta, h);
  }

  lemma {:induction false} EndResolveLaw(hostOf: string -> string, s: State, t: nat, h: string)
    requires LockShape(s.tasks, s.firing) && FiringShape(s.firing, hostOf) && TaskShape(s.tasks, hostOf)
    requires t in s.tasks && s.tasks[t].Decrementing?
    requires Law(s, h)
    ensures Law(EndResolve(s, t), h)
    ensures s.tasks[t].a.hostId == h ==> CountOf(s.hosts, h) + s.lost[h] > 0
  {
    PendingWithinKeys(s.tasks, s.firing, h, hostOf);
    TasksAfterSet(s.tasks, t, Broadcasting(s.tasks[t].a), h);
    CountedMoves(s.hosts, s.lost, s.tasks[t].a.hostId, -1, h);
  }

  lemma {:induction false} IngestLaw(s: State, t: nat, a: Alert, h: string)
    requires t !in s.tasks && Law(s, h)
    ensures Law(BeginIngest(s, t, a), h)
  {
    if !InMaintenance(s.hosts, a.hostId) { TasksAfterSet(s.tasks, t, Touched(a), h); }
  }

  ghost predicate CountLaw(s: State) {
    forall h :: Law(s, h)
  }

  lemma {:induction false} StepLaw(hostOf: string -> string, s: State, x: Action, h: string)
    requires Shape(s, hostOf) && Owned(x, hostOf) && Enabled(s, x) && Law(s, h)
    ensures Law(Do(s, x), h)
  {
    match x
    case Hello(id, name, startedAt, maintenance) =>
    case Heartbeat(id, name, ts) =>
    case IngestTouch(t, a) => IngestLaw(s, t, a, h);
    case IngestApply(t) => ApplyLaw(hostOf, s, t, s.tasks[t].a, h);
    case SyslogApply(t, a) => ApplyLaw(hostOf, Introduce(s, a.hostId), t, a, h);
    case BumpEnd(t) => EndBumpLaw(hostOf, s, t, h);
    case ResolveBegin(t, fp, now) =>
      var a := ClosedBy(s.firing[fp], now);
      RemoveLaw(s, t, fp, a, Decrementing(a), h);
    case ResolveEnd(t) => EndResolveLaw(hostOf, s, t, h);
    case TickBegin(_, _) =>
    case Watch =>
      var w := s.tick.left[0];
      WatchLaw(hostOf, Popped(s), w.0, w.1.name, w.1.lastSeen, s.tick.now, h);
    case Send(t) => TasksAfterDrop(s.tasks, t, h);
  }

  lemma {:induction false} ApplyShape(hostOf: string -> string, s: State, t: nat, a: Alert)
    requires Shape(s, hostOf) && FiringFree(s)
    requires hostOf(a.fingerprint) == a.hostId && (a.hostId in s.hosts || a.hostId in s.strangers)
    ensures Shape(Apply(s, t, a), hostOf)
  {
    var u := Apply(s, t, a);
    PutShape(s.firing, s.tasks, t, a, u.tasks, hostOf);
    PutLockShape(s.tasks, s.firing, t, a, u.tasks);
    ApplyKnown(s, t, a);
  }

  lemma {:induction false} PutShape(firing: Firings, tasks: Tasks, t: nat, a: Alert, tasks': Tasks,
                                    hostOf: string -> string)
    requires FiringShape(firing, hostOf) && TaskShape(tasks, hostOf) && hostOf(a.fingerprint) == a.hostId
    requires tasks' == tasks - {t} || (t in tasks' && tasks' == tasks[t := tasks'[t]] && tasks'[t].a == a)
    ensures FiringShape(Put(firing, a), hostOf) && TaskShape(tasks', hostOf)
  {
  }

  lemma {:induction false} ApplyKnown(s: State, t: nat, a: Alert)
    requires Known(s) && (a.hostId in s.hosts || a.hostId in s.strangers)
    ensures Known(Apply(s, t, a))
  {
  }

  lemma {:induction false} PutLockShape(tasks: Tasks, firing: Firings, t: nat, a: Alert, tasks': Tasks)
    requires forall u <- tasks :: !tasks[u].Bumping?
    requires tasks' == tasks - {t} ||
             (t in tasks' && tasks' == tasks[t := tasks'[t]] &&
              (|| tasks'[t].Broadcasting? || tasks'[t] == Bumping(a, -1)
               || (tasks'[t] == Bumping(a, 1) && a.state == Firing)))
    ensures LockShape(tasks', Put(firing, a))
  {
    assert forall u <- tasks' :: tasks'[u].Bumping? ==> u == t;
  }

  lemma {:induction false} WatchShape(hostOf: string -> string, s: State, id: string, name: string, seen: int, now: int)
    requires Shape(s, hostOf) && FiringFree(s) && id in s.hosts
    ensures Shape(WatchHost(s, id, name, seen, now), hostOf)
  {
    var online := Online(now, seen, s.after);
    var u := Judged(s, id, online);
    var fp := OfflineFp(id);
    if WatchHost(s, id, name, seen, now) != s {
      if !online {
        ApplyShape(hostOf, u, WATCHER, OfflineAlert(name, id, now));
      } else if fp in s.firing {
        var a := s.firing[fp].(state := Resolved, ts := now);
      }
    }
  }

  lemma {:induction false} TaskShapeAfterSet(hostOf: string -> string, s: State, t: nat, pc: Pc)
    requires Shape(s, hostOf) && !pc.Bumping?
    requires hostOf(pc.a.fingerprint) == pc.a.hostId && (pc.a.hostId in s.hosts || pc.a.hostId in s.strangers)
    ensures Shape(s.(tasks := s.tasks[t := pc]), hostOf)
  {
  }

  /** A task that counts a change by one more or one less and goes on to broadcast. */
  lemma {:induction false} BumpShape(hostOf: string -> string, s: State, t: nat, delta: int)
    requires Shape(s, hostOf) && t in s.tasks
    ensures Shape(Counted(s, s.tasks[t].a.hostId, delta).(tasks := s.tasks[t := Broadcasting(s.tasks[t].a)]), hostOf)
  {
    TaskShapeAfterSet(hostOf, s, t, Broadcasting(s.tasks[t].a));
  }

  lemma {:induction false} IngestShape(hostOf: string -> string, s: State, t: nat, a: Alert)
    requires Shape(s, hostOf) && hostOf(a.fingerprint) == a.hostId && hostOf(OfflineFp(a.hostId)) == a.hostId
    ensures Shape(BeginIngest(s, t, a), hostOf)
  {
    if !InMaintenance(s.hosts, a.hostId) {
      TaskShapeAfterSet(hostOf, s.(hosts := Touch(s.hosts, a.host, a.hostId, a.ts)), t, Touched(a));
    }
  }

  lemma {:induction false} StepShape(hostOf: string -> string, s: State, x: Action)
    requires Shape(s, hostOf) && Owned(x, hostOf) && Enabled(s, x)
    ensures Shape(Do(s, x), hostOf)
  {
    match x
    case Hello(id, _, _, _) =>
    case Heartbeat(id, _, _) =>
    case IngestTouch(t, a) => IngestShape(hostOf, s, t, a);
    case IngestApply(t) => ApplyShape(hostOf, s, t, s.tasks[t].a);
    case SyslogApply(t, a) => ApplyShape(hostOf, Introduce(s, a.hostId), t, a);
    case BumpEnd(t) => BumpShape(hostOf, s, t, s.tasks[t].delta);
    case ResolveBegin(t, fp, now) =>
      var a := ClosedBy(s.firing[fp], now);
    case ResolveEnd(t) => BumpShape(hostOf, s, t, -1);
    case TickBegin(_, _) =>
    case Watch =>
      var w := s.tick.left[0];
      WatchShape(hostOf, Popped(s), w.0, w.1.name, w.1.lastSeen, s.tick.now);
    case Send(t) =>
  }

  // ---- Whole runs ----

  lemma {:induction false} StepCounts(hostOf: string -> string, s: State, x: Action)
    requires Shape(s, hostOf) && CountLaw(s) && Owned(x, hostOf) && Enabled(s, x)
    ensures CountLaw(Do(s, x))
  {
    forall h ensures Law(Do(s, x), h) { StepLaw(hostOf, s, x, h); }
  }

  lemma {:induction false} LawThroughout(hostOf: string -> string, s: State, xs: seq<Action>)
    requires Shape(s, hostOf) && CountLaw(s) && forall x <- xs :: Owned(x, hostOf)
    ensures Shape(Run(s, xs), hostOf) && CountLaw(Run(s, xs))
    decreases |xs|
  {
    if xs != [] {
      var u := Do(s, xs[0]);
      if Enabled(s, xs[0]) {
        StepShape(hostOf, s, xs[0]);
        StepCounts(hostOf, s, xs[0]);
      }
      LawThroughout(hostOf, u, xs[1..]);
    }
  }

  lemma GenuineOwned(xs: seq<Action>)
    requires AllGenuine(xs)
    ensures forall x <- xs :: Owned(x, HostOf)
  {
    forall x | x in xs ensures Owned(x, HostOf) {
      match x
      case Hello(id, _, _, _) => HostOfWellFormed(id, COLLECTOR, None, "host_offline");
      case Heartbeat(id, _, _) => HostOfWellFormed(id, COLLECTOR, None, "host_offline");
      case IngestTouch(_, a) =>
        HostOfWellFormed(a.hostId, a.category, a.device, a.metric);
        HostOfWellFormed(a.hostId, COLLECTOR, None, "host_offline");
      case SyslogApply(_, a) => HostOfWellFormed(a.hostId, a.category, a.device, a.metric);
      case _ =>
    }
  }

  lemma Reachable(after: U64, xs: seq<Action>)
    requires AllGenuine(xs)
    ensures Shape(Run(Init(after), xs), HostOf) && CountLaw(Run(Init(after), xs))
  {
    GenuineOwned(xs);
    LawThroughout(HostOf, Init(after), xs);
  }

  /** Count conservation at every reachable state, for every host id, registered or not. When the firing lock
      is free, the counter plus the changes it lost is the number of firing alerts, plus the operator resolves
      under way, plus the host_offline alerts that the watcher has resolved; and so the counter is the
      number of alerts exactly when these three cancel out. */
  lemma {:induction false} CountConservation(after: U64, xs: seq<Action>, h: string)
    requires AllGenuine(xs)
    ensures Law(Run(Init(after), xs), h)
    ensures var s := Run(Init(after), xs);
            FiringFree(s) ==>
              && CountOf(s.hosts, h) + s.lost[h] == |KeysOf(s.firing, h)| + |Removing(s.tasks, h)| + s.drift[h]
              && (CountOf(s.hosts, h) == |KeysOf(s.firing, h)| <==> s.lost[h] == |Removing(s.tasks, h)| + s.drift[h])
  {
    var s := Run(Init(after), xs);
    Reachable(after, xs);
    if FiringFree(s) {
      assert Counting(s.tasks, h, 1) == {} && Counting(s.tasks, h, -1) == {};
    }
  }

  /** Unless a syslog alert came in for a host while it was not registered, none of its changes is lost:
      its counter never under-reports, and equals the number of its alerts exactly when no operator resolve
      is under way and the watcher has resolved none. */
  lemma {:induction false} NeverUnderReports(after: U64, xs: seq<Action>, h: string)
    requires AllGenuine(xs)
    requires var s := Run(Init(after), xs); FiringFree(s) && h !in s.strangers
    ensures var s := Run(Init(after), xs);
            && s.lost[h] == 0 && CountOf(s.hosts, h) >= |KeysOf(s.firing, h)|
            && (CountOf(s.hosts, h) == |KeysOf(s.firing, h)| <==> Removing(s.tasks, h) == {} && s.drift[h] == 0)
  {
    CountConservation(after, xs, h);
    Reachable(after, xs);
  }

  /** A clamp at zero takes effect only where a change was lost before: never, but for strangers. */
  lemma {:induction false} ClampsNeverHit(after: U64, xs: seq<Action>, t: nat)
    requires AllGenuine(xs)
    requires var s := Run(Init(after), xs);
             t in s.tasks && ((s.tasks[t].Bumping? && s.tasks[t].delta < 0) || s.tasks[t].Decrementing?)
    ensures var s := Run(Init(after), xs);
            var h := s.tasks[t].a.hostId;
            && (CountOf(s.hosts, h) == 0 ==> s.lost[h] > 0)
            && (h !in s.strangers ==> CountOf(s.hosts, h) > 0)
  {
    var s := Run(Init(after), xs);
    Reachable(after, xs);
    if s.tasks[t].Bumping? {
      EndBumpLaw(HostOf, s, t, s.tasks[t].a.hostId);
    } else {
      EndResolveLaw(HostOf, s, t, s.tasks[t].a.hostId);
    }
  }

  // ---- Where the plain equality fails ----

  /** A host says hello, is silent until it is found offline at t1, sends a heartbeat and is found online. */
  function GoesSilent(id: string, name: string, t0: int, t1: int): seq<Action> {
    [Hello(id, name, t0, false)]
    + [TickBegin([(id, Host(name, t0, 0, false))], t1), Watch, BumpEnd(WATCHER), Send(WATCHER)]
  }

  function ComesBack(id: string, name: string, beat: int, t1: int): seq<Action> {
    [Heartbeat(id, name, beat), TickBegin([(id, Host(name, beat, 1, false))], t1), Watch, Send(WATCHER)]
  }

  /** One host, and nothing under way. */
  ghost predicate OneHost(s: State, id: string, host: Host) {
    s.hosts == map[id := host] && s.tasks == map[] && s.tick.left == []
  }

  lemma {:induction false} TickOfOne(s: State, id: string, host: Host, now: int)
    requires OneHost(s, id, host)
    ensures var list := [(id, host)];
            Enabled(s, TickBegin(list, now)) && Do(s, TickBegin(list, now)) == s.(tick := Tick(now, list))
    ensures var u := s.(tick := Tick(now, [(id, host)]));
            Enabled(u, Watch) && Do(u, Watch) == WatchHost(u.(tick := Tick(now, [])), id, host.name, host.lastSeen, now)
  {
    assert [(id, host)][1..] == [];
  }

  lemma {:induction false} SilentHostRaised(s: State, id: string, host: Host, now: int)
    requires OneHost(s, id, host) && s.firing == map[] && id !in s.lastOnline && !Online(now, host.lastSeen, s.after)
    ensures var u := Do(Do(s, TickBegin([(id, host)], now)), Watch);
            var v := Do(Do(u, BumpEnd(WATCHER)), Send(WATCHER));
            && v.firing.Keys == {OfflineFp(id)} && OneHost(v, id, host.(count := host.count + 1)) && v.after == s.after
            && OfflineRecorded(v, id)
  {
    TickOfOne(s, id, host, now);
    var a := OfflineAlert(host.name, id, now);
    var u := Do(Do(s, TickBegin([(id, host)], now)), Watch);
    assert u.firing == map[a.fingerprint := a] && u.tasks == map[WATCHER := Bumping(a, 1)];
    var w := Do(u, BumpEnd(WATCHER));
    assert w.tasks == map[WATCHER := Broadcasting(a)] && w.hosts == map[id := host.(count := host.count + 1)];
    assert w.tasks - {WATCHER} == map[];
  }

  lemma {:induction false} RecoveredHostDropped(s: State, id: string, host: Host, now: int)
    requires OneHost(s, id, host) && s.firing.Keys == {OfflineFp(id)} && OfflineRecorded(s, id)
    requires Online(now, host.lastSeen, s.after)
    ensures var v := Do(Do(Do(s, TickBegin([(id, host)], now)), Watch), Send(WATCHER));
            v.firing == map[] && OneHost(v, id, host)
  {
    TickOfOne(s, id, host, now);
    var u := Do(Do(s, TickBegin([(id, host)], now)), Watch);
    assert u.firing == map[];
    assert u.tasks == map[WATCHER := u.tasks[WATCHER]] && u.tasks[WATCHER].Broadcasting?;
    assert u.tasks - {WATCHER} == map[];
  }

  /** A host that goes silent and comes back is left with a counter of one and no alert. */
  lemma {:induction false} WatcherLeavesCountHigh(after: U64, id: string, name: string, now: int)
    ensures var t0, t1 := BeatAt(after, now), OffAt(after, now);
            var beat := BeatAt(after, t1);
            var s := Run(Init(after), GoesSilent(id, name, t0, t1) + ComesBack(id, name, beat, t1));
            s.firing == map[] && OneHost(s, id, Host(name, beat, 1, false))
  {
    var t0, t1 := BeatAt(after, now), OffAt(after, now);
    var beat := BeatAt(after, t1);
    GoneSilent(after, id, name, t0, t1);
    var s2 := Run(Init(after), GoesSilent(id, name, t0, t1));
    var s3 := Do(s2, Heartbeat(id, name, beat));
    assert OneHost(s3, id, Host(name, beat, 1, false));
    RecoveredHostDropped(s3, id, Host(name, beat, 1, false), t1);
    FourActions(s2, Heartbeat(id, name, beat), TickBegin([(id, Host(name, beat, 1, false))], t1), Watch, Send(WATCHER));
    RunConcat(Init(after), GoesSilent(id, name, t0, t1), ComesBack(id, name, beat, t1));
  }

  lemma {:induction false} GoneSilent(after: U64, id: string, name: string, t0: int, t1: int)
    requires !Online(t1, t0, after)
    ensures var s := Run(Init(after), GoesSilent(id, name, t0, t1));
            && s.firing.Keys == {OfflineFp(id)} && OneHost(s, id, Host(name, t0, 1, false)) && s.after == after
            && OfflineRecorded(s, id)
  {
    var host, hello := Host(name, t0, 0, false), Hello(id, name, t0, false);
    var s1 := Do(Init(after), hello);
    assert OneHost(s1, id, host);
    SilentHostRaised(s1, id, host, t1);
    OneAction(Init(after), hello);
    FourActions(s1, TickBegin([(id, host)], t1), Watch, BumpEnd(WATCHER), Send(WATCHER));
    RunConcat(Init(after), [hello], [TickBegin([(id, host)], t1), Watch, BumpEnd(WATCHER), Send(WATCHER)]);
  }

  /** A syslog sender that registers later is under-counted: its earlier alert was never counted. */
  lemma {:induction false} SyslogSenderUndercounted(a: Alert, name: string, t0: int)
    requires a.state == Firing
    ensures var s := Do(Do(Do(Do(Init(10), SyslogApply(0, a)), BumpEnd(0)), Send(0)), Hello(a.hostId, name, t0, false));
            && s.tasks == map[] && a.hostId in s.hosts && s.hosts[a.hostId].count == 0
            && KeysOf(s.firing, a.hostId) == {a.fingerprint}
  {
    var s1 := Do(Init(10), SyslogApply(0, a));
    assert s1.tasks == map[0 := Bumping(a, 1)] && s1.firing == map[a.fingerprint := a];
    var s2 := Do(s1, BumpEnd(0));
    assert s2.hosts == map[];
    assert Do(s2, Send(0)).tasks == map[];
  }
}
