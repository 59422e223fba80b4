/** What browsers are told of a host_offline alert: the order of broadcasts against the order of changes,
    collector/src/main.rs, spawn_offline_watcher, and collector/src/http.rs, api_resolve. */
module Broadcasts {
  import opened Basics
  import opened Shared
  import opened Collector
  import opened Watcher

  /** At most one broadcast about k is outstanding, and it is the only change not yet told. */
  ghost predicate ToldInOrder(changes: seq<Alert>, sent: seq<Alert>, tasks: Tasks, k: string) {
    && (forall t, u :: Pending(tasks, t, k) && Pending(tasks, u, k) ==> t == u)
    && (Settled(tasks, k) ==> Log(changes, k) == Log(sent, k))
    && (forall t :: Pending(tasks, t, k) ==> Log(changes, k) == Log(sent, k) + [tasks[t].a.state])
  }

  /** Only the watcher raises k, and it neither reads alerts off a connection nor resolves for an operator. */
  ghost predicate WatcherRaises(tasks: Tasks, k: string) {
    && (forall t :: Pending(tasks, t, k) && tasks[t].a.state == Firing ==> t == WATCHER)
    && (WATCHER in tasks ==> tasks[WATCHER].Bumping? || tasks[WATCHER].Broadcasting?)
    && (forall t :: Pending(tasks, t, k) && tasks[t].Decrementing? ==> tasks[t].a.state == Resolved)
  }

  /** The tick will not come to look at h any more. */
  predicate NotLeft(tick: Tick, h: string) { forall e <- tick.left :: e.0 != h }

  /** Nothing about k is untold but one broadcast, and the watcher's is about a host that its tick is done with. */
  ghost predicate Orderly(s: State, h: string, k: string) {
    && Watched(s, h, k) && OfflineFp(h) == k && ToldInOrder(s.changes, s.sent, s.tasks, k) && WatcherRaises(s.tasks, k)
    && TickFits(s) && (Pending(s.tasks, WATCHER, k) ==> NotLeft(s.tick, h))
  }

  // ---- One step ----

  /** A task takes up a change, of k only if no other broadcast about k is outstanding. */
  lemma {:induction false} ChangeTold(changes: seq<Alert>, sent: seq<Alert>, tasks: Tasks, t: nat, pc: Pc, k: string)
    requires ToldInOrder(changes, sent, tasks, k) && !pc.Touched? && (t in tasks ==> tasks[t].Touched?)
    requires pc.a.fingerprint == k ==> Settled(tasks, k)
    ensures ToldInOrder(changes + [pc.a], sent, tasks[t := pc], k)
  {
    LogSnoc(changes, pc.a, k);
    if pc.a.fingerprint == k {
      OwnPending(tasks, tasks[t := pc], t, pc, k);
    } else {
      OthersPending(tasks, tasks[t := pc], t, pc, k);
    }
  }

  lemma OwnPending(tasks: Tasks, now: Tasks, t: nat, pc: Pc, k: string)
    requires now == tasks[t := pc] && Settled(tasks, k) && pc.a.fingerprint == k && !pc.Touched?
    ensures Pending(now, t, k) && !Settled(now, k)
    ensures forall u :: Pending(now, u, k) ==> u == t
  {
    assert Pending(now, t, k);
    forall u | Pending(now, u, k) ensures u == t {
      if u != t { assert u in tasks && Pending(tasks, u, k); }
    }
  }

  lemma OthersPending(tasks: Tasks, now: Tasks, t: nat, pc: Pc, k: string)
    requires now == tasks[t := pc] && pc.a.fingerprint != k && (t in tasks ==> tasks[t].Touched?)
    ensures forall u :: Pending(now, u, k) ==> Pending(tasks, u, k) && now[u] == tasks[u]
    ensures Settled(now, k) ==> Settled(tasks, k)
  {
    forall u | u in tasks && Settled(now, k) ensures !Pending(tasks, u, k) {
      if u != t { assert now[u] == tasks[u] && !Pending(now, u, k); }
    }
  }

  lemma {:induction false} ChangeRaises(tasks: Tasks, t: nat, pc: Pc, k: string)
    requires WatcherRaises(tasks, k) && (t == WATCHER ==> pc.Bumping? || pc.Broadcasting?)
    requires pc.a.fingerprint == k && pc.a.state == Firing ==> t == WATCHER
    requires pc.Decrementing? ==> pc.a.state == Resolved
    ensures WatcherRaises(tasks[t := pc], k)
  {
  }

  /** A task that only moves on, or is done with nothing to tell. */
  lemma {:induction false} MoveTold(changes: seq<Alert>, sent: seq<Alert>, tasks: Tasks, t: nat, k: string)
    requires ToldInOrder(changes, sent, tasks, k) && t in tasks && !tasks[t].Touched?
    ensures ToldInOrder(changes, sent, tasks[t := Broadcasting(tasks[t].a)], k)
  {
    var now := tasks[t := Broadcasting(tasks[t].a)];
    assert forall u :: Pending(now, u, k) <==> Pending(tasks, u, k);
  }

  lemma {:induction false} SendTold(changes: seq<Alert>, sent: seq<Alert>, tasks: Tasks, t: nat, k: string)
    requires ToldInOrder(changes, sent, tasks, k) && t in tasks && tasks[t].Broadcasting?
    ensures ToldInOrder(changes, sent + [tasks[t].a], tasks - {t}, k)
  {
    LogSnoc(sent, tasks[t].a, k);
    var now := tasks - {t};
    assert forall u :: u != t ==> (Pending(now, u, k) <==> Pending(tasks, u, k));
    if tasks[t].a.fingerprint == k {
      assert Pending(tasks, t, k);
      assert Settled(now, k);
    } else {
      assert Settled(now, k) ==> Settled(tasks, k);
    }
  }

  /** A task that is not about k, or has only been read, comes or goes. */
  lemma {:induction false} AsideTold(changes: seq<Alert>, sent: seq<Alert>, tasks: Tasks, tasks': Tasks, k: string)
    requires ToldInOrder(changes, sent, tasks, k) && WatcherRaises(tasks, k)
    requires forall u :: Pending(tasks', u, k) <==> Pending(tasks, u, k)
    requires forall u :: Pending(tasks, u, k) ==> u in tasks' && tasks'[u] == tasks[u]
    requires WATCHER in tasks' ==> WATCHER in tasks && tasks'[WATCHER] == tasks[WATCHER]
    ensures ToldInOrder(changes, sent, tasks', k) && WatcherRaises(tasks', k)
  {
  }

  lemma {:induction false} ApplyOrderly(s: State, t: nat, a: Alert, h: string, k: string)
    requires ToldInOrder(s.changes, s.sent, s.tasks, k) && WatcherRaises(s.tasks, k)
    requires t in s.tasks ==> s.tasks[t].Touched?
    requires a.fingerprint == k ==> a.state == Firing && t == WATCHER && Settled(s.tasks, k)
    ensures var u := Apply(s, t, a); ToldInOrder(u.changes, u.sent, u.tasks, k) && WatcherRaises(u.tasks, k)
  {
    var u := Apply(s, t, a);
    if Changed(s.firing, a) {
      ChangeTold(s.changes, s.sent, s.tasks, t, u.tasks[t], k);
      ChangeRaises(s.tasks, t, u.tasks[t], k);
    } else {
      AsideTold(s.changes, s.sent, s.tasks, u.tasks, k);
    }
  }

  lemma {:induction false} RemoveOrderly(s: State, t: nat, fp: string, a: Alert, pc: Pc, h: string, k: string)
    requires ToldInOrder(s.changes, s.sent, s.tasks, k) && WatcherRaises(s.tasks, k) && t !in s.tasks
    requires a.fingerprint == fp && a.state == Resolved && (fp == k ==> Settled(s.tasks, k))
    requires pc == Broadcasting(a) || (pc == Decrementing(a) && t != WATCHER)
    ensures var u := Remove(s, t, fp, a, pc); ToldInOrder(u.changes, u.sent, u.tasks, k) && WatcherRaises(u.tasks, k)
  {
    ChangeTold(s.changes, s.sent, s.tasks, t, pc, k);
    ChangeRaises(s.tasks, t, pc, k);
  }

  lemma {:induction false} WatchOrderly(s: State, id: string, name: string, seen: int, now: int, h: string, k: string)
    requires Orderly(s, h, k) && WATCHER !in s.tasks && id in s.hosts
    requires (k in WatchHost(s, id, name, seen, now).firing <==> k in s.firing) || Settled(s.tasks, k)
    ensures var u := WatchHost(s, id, name, seen, now);
            ToldInOrder(u.changes, u.sent, u.tasks, k) && WatcherRaises(u.tasks, k)
  {
    var online := Online(now, seen, s.after);
    var u := Judged(s, id, online);
    if !(id in s.lastOnline && s.lastOnline[id] == online) {
      if !online {
        var a := OfflineAlert(name, id, now);
        assert a.fingerprint == k ==> k !in s.firing && k in Put(s.firing, a);
        ApplyOrderly(u, WATCHER, a, h, k);
      } else if OfflineFp(id) in s.firing {
        var a := s.firing[OfflineFp(id)].(state := Resolved, ts := now);
        RemoveOrderly(u, WATCHER, OfflineFp(id), a, Broadcasting(a), h, k);
      }
    }
  }

  /** A new broadcast of the watcher's about k can only come of looking at h. */
  lemma {:induction false} WatcherDone(s: State, x: Action, h: string, k: string)
    requires Orderly(s, h, k) && Enabled(s, x)
    ensures Pending(Do(s, x).tasks, WATCHER, k) ==> NotLeft(Do(s, x).tick, h)
  {
    TickMoves(s, x);
    if x.Watch? {
      WatchTakesUp(s, k);
    } else {
      WatcherUntouched(s, x);
    }
  }

  /** Looking at a host leaves the watcher with an alert of that host's key, if with any. */
  lemma {:induction false} WatchTakesUp(s: State, k: string)
    requires Enabled(s, Watch) && KeysFit(s.firing)
    ensures var d := WatchNext(s);
            WATCHER in d.tasks ==> d.tasks[WATCHER].a.fingerprint == OfflineFp(s.tick.left[0].0)
  {
  }

  lemma {:induction false} WatcherUntouched(s: State, x: Action)
    requires Enabled(s, x) && !x.Watch?
    ensures WATCHER in Do(s, x).tasks ==> WATCHER in s.tasks && Do(s, x).tasks[WATCHER].a == s.tasks[WATCHER].a
  {
  }

  lemma {:induction false} StepOrderly(s: State, x: Action, h: string, k: string)
    requires Orderly(s, h, k) && Apart(x, h, k) && Enabled(s, x) && InTurn(s, x, k)
    ensures Orderly(Do(s, x), h, k)
  {
    StepWatched(s, x, h, k);
    TickStep(s, x);
    WatcherDone(s, x, h, k);
    StepTold(s, x, h, k);
  }

  lemma {:induction false} StepTold(s: State, x: Action, h: string, k: string)
    requires Orderly(s, h, k) && Apart(x, h, k) && Enabled(s, x) && InTurn(s, x, k)
    ensures var u := Do(s, x); ToldInOrder(u.changes, u.sent, u.tasks, k) && WatcherRaises(u.tasks, k)
  {
    match x
    case Hello(_, _, _, _) =>
    case Heartbeat(_, _, _) =>
    case IngestTouch(t, a) => AsideTold(s.changes, s.sent, s.tasks, BeginIngest(s, t, a).tasks, k);
    case IngestApply(t) => ApplyOrderly(s, t, s.tasks[t].a, h, k);
    case SyslogApply(t, a) => ApplyOrderly(Introduce(s, a.hostId), t, a, h, k);
    case BumpEnd(t) =>
      MoveTold(s.changes, s.sent, s.tasks, t, k);
      ChangeRaises(s.tasks, t, Broadcasting(s.tasks[t].a), k);
    case ResolveBegin(t, fp, now) =>
      var a := ClosedBy(s.firing[fp], now);
      RemoveOrderly(s, t, fp, a, Decrementing(a), h, k);
    case ResolveEnd(t) =>
      MoveTold(s.changes, s.sent, s.tasks, t, k);
      ChangeRaises(s.tasks, t, Broadcasting(s.tasks[t].a), k);
    case TickBegin(_, _) =>
    case Watch =>
      var w := s.tick.left[0];
      WatchOrderly(Popped(s), w.0, w.1.name, w.1.lastSeen, s.tick.now, h, k);
    case Send(t) =>
      SendTold(s.changes, s.sent, s.tasks, t, k);
      SendRaises(s.tasks, t, k);
  }

  lemma SendRaises(tasks: Tasks, t: nat, k: string)
    requires WatcherRaises(tasks, k)
    ensures WatcherRaises(tasks - {t}, k)
  {
    assert forall u :: Pending(tasks - {t}, u, k) ==> Pending(tasks, u, k);
  }

  // ---- Whole runs ----

  lemma {:induction false} OrderlyThroughout(s: State, xs: seq<Action>, h: string, k: string)
    requires Orderly(s, h, k) && (forall x <- xs :: Apart(x, h, k)) && AllInTurn(s, xs, k)
    ensures Orderly(Run(s, xs), h, k)
    decreases |xs|
  {
    if xs != [] {
      if Enabled(s, xs[0]) { StepOrderly(s, xs[0], h, k); }
      OrderlyThroughout(Do(s, xs[0]), xs[1..], h, k);
    }
  }

  lemma Reached(after: U64, xs: seq<Action>, h: string)
    requires AllGenuine(xs) && BarFree(h) && AllInTurn(Init(after), xs, OfflineFp(h))
    ensures Orderly(Run(Init(after), xs), h, OfflineFp(h))
  {
    GenuineApart(xs, h);
    OrderlyThroughout(Init(after), xs, h, OfflineFp(h));
  }

  /** No two firings in a row. */
  ghost predicate Separated(l: seq<AlertState>) {
    forall i :: 0 < i < |l| ==> !(l[i - 1] == Firing && l[i] == Firing)
  }

  lemma OrderlySeparated(s: State, h: string, k: string)
    requires Orderly(s, h, k)
    ensures Alternates(Log(s.sent, k)) && Separated(Log(s.sent, k))
  {
    var l, m := Log(s.sent, k), Log(s.changes, k);
    if !Settled(s.tasks, k) {
      var t :| Pending(s.tasks, t, k);
      assert m == l + [s.tasks[t].a.state];
    }
    assert forall i :: 0 <= i < |l| ==> l[i] == m[i];
  }

  /** As long as no change of a host's host_offline alert is made while a broadcast about it is outstanding,
      its broadcasts alternate: two firings are separated by a resolve. */
  lemma BroadcastsAlternate(after: U64, xs: seq<Action>, h: string)
    requires AllGenuine(xs) && BarFree(h) && AllInTurn(Init(after), xs, OfflineFp(h))
    ensures Alternates(Log(Run(Init(after), xs).sent, OfflineFp(h)))
  {
    Reached(after, xs, h);
    OrderlySeparated(Run(Init(after), xs), h, OfflineFp(h));
  }

  // ---- The exception ----

  /** An operator's resolve of k is between its remove and its broadcast. */
  ghost predicate OperatorResolving(s: State, k: string) { exists t :: t != WATCHER && Pending(s.tasks, t, k) }

  /** The watcher raises k while an operator's resolve of it has not been broadcast, or an operator resolves
      k while the watcher's firing of it has not been. */
  ghost predicate Overlaps(s: State, x: Action, k: string) {
    || (x.Watch? && k !in s.firing && k in Do(s, x).firing && OperatorResolving(s, k))
    || (x.ResolveBegin? && x.fp == k && Pending(s.tasks, WATCHER, k))
  }

  lemma {:induction false} PendingSays(s: State, t: nat, h: string, k: string)
    requires Orderly(s, h, k) && Pending(s.tasks, t, k)
    ensures s.tasks[t].a.state == Firing <==> k in s.firing
    ensures t == WATCHER || s.tasks[t].a.state == Resolved
  {
    assert Log(s.changes, k)[|Log(s.sent, k)|] == s.tasks[t].a.state;
  }

  /** After a run in turn, a step is out of turn exactly when it overlaps. */
  lemma {:induction false} OutOfTurnIsOverlap(s: State, x: Action, h: string, k: string)
    requires Orderly(s, h, k) && Apart(x, h, k) && Enabled(s, x)
    ensures !InTurn(s, x, k) <==> Overlaps(s, x, k)
  {
    if t :| Pending(s.tasks, t, k) {
      PendingSays(s, t, h, k);
      OnlyThese(s, x, h, k);
      if x.ResolveBegin? && x.fp == k { assert Pending(s.tasks, WATCHER, k); }
      if x.Watch? && k !in s.firing && k in Do(s, x).firing { assert t != WATCHER; }
    }
  }
}
