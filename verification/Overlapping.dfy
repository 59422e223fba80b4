/** The exact exception to the order of host_offline broadcasts: an operator's resolve and a change by the
    watcher that overlap, and the run that makes two firings follow each other. */
module Overlapping {
  import opened Basics
  import opened Shared
  import opened Collector
  import opened Watcher
  import opened Broadcasts

  // ---- Regular runs ----

  /** A step that the code can make: genuine, in turn for k, and with a clock that does not go back. */
  ghost predicate Regular(s: State, x: Action, k: string) {
    Genuine(x) && InTurn(s, x, k) && (x.TickBegin? ==> x.now >= s.tick.now)
  }

  ghost predicate AllRegular(s: State, xs: seq<Action>, k: string)
    decreases |xs|
  {
    xs == [] || (Regular(s, xs[0], k) && AllRegular(Do(s, xs[0]), xs[1..], k))
  }

  lemma {:induction false} RegularConcat(s: State, xs: seq<Action>, ys: seq<Action>, k: string)
    ensures Run(s, xs + ys) == Run(Run(s, xs), ys)
    ensures AllRegular(s, xs + ys, k) <==> AllRegular(s, xs, k) && AllRegular(Run(s, xs), ys, k)
    decreases |xs|
  {
    if xs == [] {
      assert xs + ys == ys;
    } else {
      assert (xs + ys)[1..] == xs[1..] + ys;
      RegularConcat(Do(s, xs[0]), xs[1..], ys, k);
    }
  }

  lemma TwoRegular(s: State, x: Action, y: Action, k: string)
    ensures Run(s, [x, y]) == Do(Do(s, x), y)
    ensures AllRegular(s, [x, y], k) <==> Regular(s, x, k) && Regular(Do(s, x), y, k)
  {
    assert [x, y] == [x] + [y];
    RegularConcat(s, [x], [y], k);
  }

  lemma {:induction false} RegularIsInTurn(s: State, xs: seq<Action>, k: string)
    requires AllRegular(s, xs, k)
    ensures AllGenuine(xs) && AllInTurn(s, xs, k)
    decreases |xs|
  {
    if xs != [] {
      RegularIsInTurn(Do(s, xs[0]), xs[1..], k);
      assert forall x <- xs :: x == xs[0] || x in xs[1..];
    }
  }

  // ---- The watcher tells ----

  const TELL: seq<Action> := [BumpEnd(WATCHER), Send(WATCHER)]

  /** What telling, and most other steps, leave alone. */
  ghost predicate SameElse(d: State, e: State) {
    && e.lastOnline == d.lastOnline && e.tick == d.tick && e.after == d.after && e.hosts.Keys == d.hosts.Keys
    && forall id <- d.hosts :: e.hosts[id].lastSeen == d.hosts[id].lastSeen
  }

  lemma {:induction false} Tells(d: State, k: string)
    requires WATCHER in d.tasks && (d.tasks[WATCHER].Bumping? || d.tasks[WATCHER].Broadcasting?)
    ensures AllRegular(d, TELL, k)
    ensures var f := Run(d, TELL);
            && f.firing == d.firing && f.tasks == d.tasks - {WATCHER} && f.sent == d.sent + [d.tasks[WATCHER].a]
            && SameElse(d, f)
  {
    TwoRegular(d, BumpEnd(WATCHER), Send(WATCHER), k);
    var e := Do(d, BumpEnd(WATCHER));
    var f := Do(e, Send(WATCHER));
    assert f == e.(tasks := e.tasks - {WATCHER}, sent := e.sent + [d.tasks[WATCHER].a]);
    assert f.tasks == d.tasks - {WATCHER};
  }

  lemma {:induction false} TellsNothing(d: State, k: string)
    requires WATCHER !in d.tasks
    ensures AllRegular(d, TELL, k) && Run(d, TELL) == d
  {
    TwoRegular(d, BumpEnd(WATCHER), Send(WATCHER), k);
  }

  // ---- Browsers take k to be firing, and it is not ----

  ghost predicate TakenToFire(sent: seq<Alert>, k: string) { Log(sent, k) != [] && Last(Log(sent, k)) == Firing }

  /** The watcher is at rest, k is neither in the map nor under way, and the last that was said of it is that
      it is firing. */
  ghost predicate Misled(e: State, h: string, k: string) {
    && WATCHER !in e.tasks && FiringFree(e) && h in e.hosts && OfflineFp(h) == k
    && (forall id <- e.hosts :: OfflineFp(id) == k ==> id == h)
    && k !in e.firing && KeysFit(e.firing) && Settled(e.tasks, k) && TickFits(e) && TakenToFire(e.sent, k)
  }

  /** The watcher has looked at another host than h. */
  ghost predicate LookedAside(e: State, d: State, h: string, k: string) {
    && k !in d.firing && KeysFit(d.firing) && d.after == e.after && d.hosts == e.hosts && d.sent == e.sent
    && d.tasks - {WATCHER} == e.tasks && Knows(e.lastOnline, d.lastOnline, h)
    && (WATCHER in d.tasks ==>
          (d.tasks[WATCHER].Bumping? || d.tasks[WATCHER].Broadcasting?) && d.tasks[WATCHER].a.fingerprint != k)
  }

  /** The same verdict on h, if any. */
  predicate Knows(before: map<string, bool>, after: map<string, bool>, h: string) {
    (h in after <==> h in before) && (h in before ==> after[h] == before[h])
  }

  lemma {:induction false} RaisesAside(e: State, a: Alert, h: string, k: string)
    requires WATCHER !in e.tasks && k !in e.firing && KeysFit(e.firing) && a.fingerprint != k && a.state == Firing
    ensures LookedAside(e, Apply(e, WATCHER, a), h, k)
  {
  }

  /** What the watcher makes of another host. */
  lemma {:induction false} WatchElsewhere(e: State, h: string, k: string)
    requires Misled(e, h, k) && Enabled(e, Watch) && e.tick.left[0].0 != h
    ensures LookedAside(e, WatchNext(e), h, k)
  {
    var w, p := e.tick.left[0], Popped(e);
    var id, fp, online := w.0, OfflineFp(w.0), Online(e.tick.now, w.1.lastSeen, e.after);
    if !(id in e.lastOnline && e.lastOnline[id] == online) {
      var u := Judged(p, id, online);
      if !online {
        RaisesAside(u, OfflineAlert(w.1.name, id, e.tick.now), h, k);
      }
    }
  }

  /** Rest of a tick: same times, and the same verdict on h. */
  ghost predicate RestsLike(e: State, u: State, h: string) {
    && u.after == e.after && u.tick.now == e.tick.now && u.hosts.Keys == e.hosts.Keys
    && (forall id <- e.hosts :: u.hosts[id].lastSeen == e.hosts[id].lastSeen)
    && Knows(e.lastOnline, u.lastOnline, h)
  }

  lemma {:induction false} LooksElsewhere(e: State, h: string, k: string)
    requires Misled(e, h, k) && e.tick.left != [] && e.tick.left[0].0 != h
    ensures var u := Run(e, [Watch] + TELL);
            AllRegular(e, [Watch] + TELL, k) && Misled(u, h, k) && RestsLike(e, u, h) && u.tick == Popped(e).tick
  {
    assert e.tick.left[0] in e.tick.left;
    var d := WatchNext(e);
    assert Do(e, Watch) == d;
    WatchElsewhere(e, h, k);
    TickStep(e, Watch);
    TickMoves(e, Watch);
    RegularConcat(e, [Watch], TELL, k);
    TellsAside(e, d, h, k);
  }

  lemma {:induction false} TellsAside(e: State, d: State, h: string, k: string)
    requires LookedAside(e, d, h, k) && WATCHER !in e.tasks
    ensures AllRegular(d, TELL, k)
    ensures var u := Run(d, TELL);
            u.tasks == e.tasks && u.firing == d.firing && Log(u.sent, k) == Log(e.sent, k) && SameElse(d, u)
  {
    if WATCHER in d.tasks {
      Tells(d, k);
      LogSnoc(d.sent, d.tasks[WATCHER].a, k);
    } else {
      TellsNothing(d, k);
      assert d.tasks - {WATCHER} == d.tasks;
    }
  }

  /** The watcher finishes its tick. */
  lemma {:induction false} FinishesTick(e: State, h: string, k: string) returns (ys: seq<Action>)
    requires Misled(e, h, k) && NotLeft(e.tick, h)
    ensures AllRegular(e, ys, k)
    ensures var u := Run(e, ys); Misled(u, h, k) && RestsLike(e, u, h) && u.tick.left == []
    decreases |e.tick.left|
  {
    ys := [];
    if e.tick.left != [] {
      assert e.tick.left[0] in e.tick.left;
      LooksElsewhere(e, h, k);
      var u := Run(e, [Watch] + TELL);
      var rest := FinishesTick(u, h, k);
      ys := [Watch] + TELL + rest;
      RegularConcat(e, [Watch] + TELL, rest, k);
    }
  }

  // ---- The next ticks ----

  /** The records of all hosts in some order. */
  lemma {:induction false} ListOf(hosts: Hosts) returns (list: seq<(string, Host)>)
    ensures HostList(list, hosts)
    decreases |hosts|
  {
    list := [];
    if id :| id in hosts {
      var rest := ListOf(hosts - {id});
      list := Headed(hosts, id, rest);
    }
  }

  lemma {:induction false} Headed(hosts: Hosts, h: string, rest: seq<(string, Host)>)
    returns (list: seq<(string, Host)>)
    requires h in hosts && HostList(rest, hosts - {h})
    ensures list == [(h, hosts[h])] + rest && HostList(list, hosts)
  {
    list := [(h, hosts[h])] + rest;
    forall id | id in hosts ensures (id, hosts[id]) in list {
      if id == h { assert list[0] == (id, hosts[id]); } else { assert id in hosts - {h} && (id, hosts[id]) in rest; }
    }
  }

  lemma ListWithFirst(hosts: Hosts, h: string) returns (list: seq<(string, Host)>)
    requires h in hosts
    ensures HostList(list, hosts) && list != [] && list[0] == (h, hosts[h])
  {
    var rest := ListOf(hosts - {h});
    list := Headed(hosts, h, rest);
  }

  /** A tick begins, with h first on its list. */
  lemma {:induction false} TicksAgain(e: State, list: seq<(string, Host)>, now: int, h: string, k: string)
    requires Misled(e, h, k) && e.tick.left == [] && now >= e.tick.now
    requires HostList(list, e.hosts) && list != [] && list[0] == (h, e.hosts[h])
    ensures var d := Do(e, TickBegin(list, now));
            && Regular(e, TickBegin(list, now), k) && d == e.(tick := Tick(now, list))
            && Misled(d, h, k) && Enabled(d, Watch) && NotLeft(Popped(d).tick, h)
  {
    TickStep(e, TickBegin(list, now));
  }

  /** The host comes back: nothing to resolve. */
  lemma {:induction false} FoundBack(d: State, h: string, k: string)
    requires Misled(d, h, k) && Enabled(d, Watch) && d.tick.left[0].0 == h && OfflineRecorded(d, h)
    requires Online(d.tick.now, d.tick.left[0].1.lastSeen, d.after)
    ensures Regular(d, Watch, k) && Do(d, Watch) == Judged(Popped(d), h, true) && Misled(Do(d, Watch), h, k)
  {
    TickStep(d, Watch);
  }

  lemma {:induction false} Beats(e: State, beat: int, h: string, k: string)
    requires Misled(e, h, k) && BarFree(h)
    ensures var x := Heartbeat(h, e.hosts[h].name, beat);
            && Regular(e, x, k) && Misled(Do(e, x), h, k) && Do(e, x) == e.(hosts := Do(e, x).hosts)
            && Do(e, x).hosts[h].lastSeen == beat
  {
    TickStep(e, Heartbeat(h, e.hosts[h].name, beat));
  }

  /** A host that is down as offline sends a heartbeat, and the next tick finds it online. */
  lemma {:induction false} ComesBack(e: State, h: string, k: string) returns (ys: seq<Action>)
    requires Misled(e, h, k) && BarFree(h) && e.tick.left == [] && OfflineRecorded(e, h)
    ensures AllRegular(e, ys, k)
    ensures var u := Run(e, ys);
            && Misled(u, h, k) && u.tick.left == [] && u.tick.now == e.tick.now && u.after == e.after
            && h in u.lastOnline && u.lastOnline[h] && u.hosts[h].lastSeen == BeatAt(e.after, e.tick.now)
  {
    var now := e.tick.now;
    var beat := Heartbeat(h, e.hosts[h].name, BeatAt(e.after, now));
    Beats(e, BeatAt(e.after, now), h, k);
    var e1 := Do(e, beat);
    var list := ListWithFirst(e1.hosts, h);
    TicksAgain(e1, list, now, h, k);
    var e2 := Do(e1, TickBegin(list, now));
    FoundBack(e2, h, k);
    var e3 := Do(e2, Watch);
    var rest := FinishesTick(e3, h, k);
    ys := [beat, TickBegin(list, now)] + [Watch] + rest;
    TwoRegular(e, beat, TickBegin(list, now), k);
    RegularConcat(e, [beat, TickBegin(list, now)], [Watch], k);
    RegularConcat(e, [beat, TickBegin(list, now)] + [Watch], rest, k);
  }

  /** Two firings of k in a row were broadcast, the second being the last broadcast about k. */
  ghost predicate FiredTwice(s: State, k: string) {
    var l := Log(s.sent, k);
    |l| >= 2 && l[|l| - 2] == Firing && l[|l| - 1] == Firing
  }

  lemma {:induction false} FiresAgain(d: State, k: string)
    requires WATCHER in d.tasks && d.tasks[WATCHER].Bumping? && TakenToFire(d.sent, k)
    requires d.tasks[WATCHER].a.fingerprint == k && d.tasks[WATCHER].a.state == Firing
    ensures AllRegular(d, TELL, k) && FiredTwice(Run(d, TELL), k)
  {
    Tells(d, k);
    LogSnoc(d.sent, d.tasks[WATCHER].a, k);
  }

  /** It is silent until a later tick, which raises k; and so browsers hear of it twice. */
  lemma {:induction false} GoesAgain(u: State, now: int, h: string, k: string) returns (ys: seq<Action>)
    requires Misled(u, h, k) && u.tick == Tick(now, []) && h in u.lastOnline && u.lastOnline[h]
    requires u.hosts[h].lastSeen == BeatAt(u.after, now)
    ensures AllRegular(u, ys, k) && FiredTwice(Run(u, ys), k)
  {
    var later := OffAt(u.after, now);
    var list := ListWithFirst(u.hosts, h);
    TicksAgain(u, list, later, h, k);
    var d := Do(u, TickBegin(list, later));
    var e := Do(d, Watch);
    FiresAgain(e, k);
    ys := [TickBegin(list, later), Watch] + TELL;
    TwoRegular(u, TickBegin(list, later), Watch, k);
    RegularConcat(u, [TickBegin(list, later), Watch], TELL, k);
  }

  lemma {:induction false} MisledFires(e: State, h: string, k: string) returns (ys: seq<Action>)
    requires Misled(e, h, k) && BarFree(h) && NotLeft(e.tick, h) && OfflineRecorded(e, h)
    ensures AllRegular(e, ys, k) && FiredTwice(Run(e, ys), k)
  {
    var one := FinishesTick(e, h, k);
    var e1 := Run(e, one);
    var two := ComesBack(e1, h, k);
    var e2 := Run(e1, two);
    var three := GoesAgain(e2, e2.tick.now, h, k);
    ys := one + two + three;
    RegularConcat(e, one, two, k);
    RegularConcat(e, one + two, three, k);
  }

  // ---- Both kinds of overlap ----

  /** While a resolve of k is outstanding, browsers take it to be firing. */
  lemma {:induction false} FiringUntold(s: State, t: nat, h: string, k: string)
    requires Orderly(s, h, k) && Pending(s.tasks, t, k) && s.tasks[t].a.state == Resolved
    ensures TakenToFire(s.sent, k)
  {
    var l, m := Log(s.sent, k), Log(s.changes, k);
    assert m == l + [Resolved];
    assert l != [] && m[|l| - 1] == l[|l| - 1] && m[|l| - 1] != m[|l|];
  }

  /** The watcher raises k over an operator's resolve. */
  lemma {:induction false} WatchOverlapBreaks(s: State, h: string, k: string)
    requires Orderly(s, h, k) && Enabled(s, Watch) && Overlaps(s, Watch, k)
    ensures AllRegular(Do(s, Watch), TELL, k) && FiredTwice(Run(Do(s, Watch), TELL), k)
  {
    var t :| t != WATCHER && Pending(s.tasks, t, k);
    PendingSays(s, t, h, k);
    FiringUntold(s, t, h, k);
    var w := s.tick.left[0];
    var a := OfflineAlert(w.1.name, w.0, s.tick.now);
    assert Do(s, Watch) == Apply(Judged(Popped(s), w.0, false), WATCHER, a) && a.fingerprint == k;
    FiresAgain(Do(s, Watch), k);
  }

  /** An operator's resolve goes first, then the watcher's firing. */
  function Overtaking(t: nat): seq<Action> { [ResolveEnd(t), Send(t)] + [Send(WATCHER)] }

  lemma {:induction false} ResolveFinishes(d: State, t: nat, k: string)
    requires t in d.tasks && d.tasks[t].Decrementing?
    ensures var ys := [ResolveEnd(t), Send(t)];
            var e := Run(d, ys);
            && AllRegular(d, ys, k) && e.firing == d.firing && SameElse(d, e)
            && e.tasks == d.tasks - {t} && e.sent == d.sent + [d.tasks[t].a]
  {
    var e := Do(d, ResolveEnd(t));
    assert e.firing == d.firing && e.sent == d.sent && SameElse(d, e);
    assert e.tasks == d.tasks[t := Broadcasting(d.tasks[t].a)];
    var f := Do(e, Send(t));
    assert f == e.(tasks := e.tasks - {t}, sent := e.sent + [d.tasks[t].a]);
    TwoRegular(d, ResolveEnd(t), Send(t), k);
  }

  lemma {:induction false} Overtakes(d: State, t: nat, k: string)
    requires WATCHER in d.tasks && d.tasks[WATCHER].Broadcasting?
    requires t != WATCHER && t in d.tasks && d.tasks[t].Decrementing?
    ensures AllRegular(d, Overtaking(t), k)
    ensures var e := Run(d, Overtaking(t));
            && e.firing == d.firing && SameElse(d, e) && e.tasks == d.tasks - {t, WATCHER}
            && e.sent == d.sent + [d.tasks[t].a] + [d.tasks[WATCHER].a]
  {
    ResolveFinishes(d, t, k);
    var e := Run(d, [ResolveEnd(t), Send(t)]);
    var f := Do(e, Send(WATCHER));
    assert f == e.(tasks := e.tasks - {WATCHER}, sent := e.sent + [d.tasks[WATCHER].a]);
    assert f.tasks == d.tasks - {t, WATCHER};
    RegularConcat(d, [ResolveEnd(t), Send(t)], [Send(WATCHER)], k);
  }

  lemma {:induction false} ResolveMisleads(s: State, t: nat, now: int, h: string, k: string)
    requires Orderly(s, h, k) && Enabled(s, ResolveBegin(t, k, now)) && Pending(s.tasks, WATCHER, k)
    ensures var d := BeginResolve(s, t, k, now);
            var e := Run(d, Overtaking(t));
            && AllRegular(d, Overtaking(t), k) && Misled(e, h, k) && NotLeft(e.tick, h) && OfflineRecorded(e, h)
  {
    var d := BeginResolve(s, t, k, now);
    PendingSays(s, WATCHER, h, k);
    Overtakes(d, t, k);
    var e := Run(d, Overtaking(t));
    assert e.tasks == s.tasks - {WATCHER};
    assert forall u <- e.tasks :: Pending(e.tasks, u, k) ==> Pending(s.tasks, u, k);
    LogSnoc(d.sent + [d.tasks[t].a], d.tasks[WATCHER].a, k);
  }

  lemma {:induction false} ResolveOverlapBreaks(s: State, x: Action, h: string, k: string) returns (ys: seq<Action>)
    requires Orderly(s, h, k) && BarFree(h) && Enabled(s, x) && x.ResolveBegin? && Overlaps(s, x, k)
    ensures AllRegular(Do(s, x), ys, k) && FiredTwice(Run(Do(s, x), ys), k)
  {
    var d := BeginResolve(s, x.t, k, x.now);
    assert Do(s, x) == d;
    ResolveMisleads(s, x.t, x.now, h, k);
    var rest := MisledFires(Run(d, Overtaking(x.t)), h, k);
    ys := Overtaking(x.t) + rest;
    RegularConcat(d, Overtaking(x.t), rest, k);
  }

  lemma {:induction false} OverlapBreaks(s: State, x: Action, h: string, k: string) returns (ys: seq<Action>)
    requires Orderly(s, h, k) && BarFree(h) && Enabled(s, x) && Overlaps(s, x, k)
    ensures AllRegular(Do(s, x), ys, k) && !Separated(Log(Run(Do(s, x), ys).sent, k))
  {
    if x.Watch? {
      WatchOverlapBreaks(s, h, k);
      ys := TELL;
    } else {
      ys := ResolveOverlapBreaks(s, x, h, k);
    }
  }

  /** Without an overlap two firings stay separated, in every continuation in turn, regular or not. */
  lemma {:induction false} SeparatedWithoutOverlap(s: State, x: Action, ys: seq<Action>, h: string, k: string)
    requires Orderly(s, h, k) && Apart(x, h, k) && Enabled(s, x) && !Overlaps(s, x, k)
    requires (forall y <- ys :: Apart(y, h, k)) && AllInTurn(Do(s, x), ys, k)
    ensures Separated(Log(Run(Do(s, x), ys).sent, k))
  {
    OutOfTurnIsOverlap(s, x, h, k);
    StepOrderly(s, x, h, k);
    OrderlyThroughout(Do(s, x), ys, h, k);
    OrderlySeparated(Run(Do(s, x), ys), h, k);
  }

  /** The exact exception. After a run in turn, any next step leaves two firings of host_offline separated by
      a resolve, however the run goes on regularly, if and only if it is not an overlap: the watcher raising
      the alert while an operator's resolve of it is between its remove and its broadcast, or an operator
      resolving it while the watcher's firing is. */
  lemma {:induction false} OverlapExactly(after: U64, xs: seq<Action>, x: Action, h: string)
    requires AllGenuine(xs) && Genuine(x) && BarFree(h) && AllInTurn(Init(after), xs, OfflineFp(h))
    requires Enabled(Run(Init(after), xs), x)
    ensures var s, k := Run(Init(after), xs), OfflineFp(h);
            (forall ys | AllRegular(Do(s, x), ys, k) :: Separated(Log(Run(Do(s, x), ys).sent, k)))
              <==> !Overlaps(s, x, k)
  {
    var s, k := Run(Init(after), xs), OfflineFp(h);
    Reached(after, xs, h);
    if Overlaps(s, x, k) {
      var ys := OverlapBreaks(s, x, h, k);
    } else {
      GenuineApart([x], h);
      forall ys | AllRegular(Do(s, x), ys, k) ensures Separated(Log(Run(Do(s, x), ys).sent, k)) {
        RegularIsInTurn(Do(s, x), ys, k);
        GenuineApart(ys, h);
        assert x in [x];
        SeparatedWithoutOverlap(s, x, ys, h, k);
      }
    }
  }

  /** Overlaps do happen: a host says hello and falls silent, the watcher raises its alert, and an operator
      resolves it before it is broadcast. */
  lemma {:induction false} OverlapHappens(after: U64, id: string, name: string, now: int)
    ensures var host := Host(name, BeatAt(after, now), 0, false);
            var xs := [Hello(id, name, host.lastSeen, false), TickBegin([(id, host)], OffAt(after, now))]
                      + [Watch, BumpEnd(WATCHER)];
            var s, x := Run(Init(after), xs), ResolveBegin(2, OfflineFp(id), now);
            Enabled(s, x) && Overlaps(s, x, OfflineFp(id))
  {
    var host, fp := Host(name, BeatAt(after, now), 0, false), OfflineFp(id);
    var hello, tick := Hello(id, name, host.lastSeen, false), TickBegin([(id, host)], OffAt(after, now));
    var s1 := Do(Init(after), hello);
    assert s1.hosts == map[id := host] && HostList([(id, host)], s1.hosts) by { assert (id, host) in [(id, host)]; }
    var s2 := Do(s1, tick);
    assert s2 == s1.(tick := Tick(OffAt(after, now), [(id, host)]));
    RaisedAlone(s2, id, host, fp);
    TwoRegular(Init(after), hello, tick, fp);
    TwoRegular(s2, Watch, BumpEnd(WATCHER), fp);
    RunConcat(Init(after), [hello, tick], [Watch, BumpEnd(WATCHER)]);
  }

  lemma {:induction false} RaisedAlone(s: State, id: string, host: Host, fp: string)
    requires s.tick.left == [(id, host)] && s.hosts == map[id := host] && s.tasks == map[] && s.firing == map[]
    requires id !in s.lastOnline && fp == OfflineFp(id) && !Online(s.tick.now, host.lastSeen, s.after)
    ensures var e := Do(Do(s, Watch), BumpEnd(WATCHER));
            e.firing.Keys == {fp} && e.tasks.Keys == {WATCHER} && Pending(e.tasks, WATCHER, fp) && FiringFree(e)
  {
    var a := OfflineAlert(host.name, id, s.tick.now);
    var d := Do(s, Watch);
    assert d.tasks == map[WATCHER := Bumping(a, 1)] && d.firing == map[fp := a];
    assert Do(d, BumpEnd(WATCHER)).tasks == map[WATCHER := Broadcasting(a)];
  }
}
