/** One browser against the collector: collector/src/ws_subscribe.rs, gui/app.js, and the broadcasts. */
module Replica {
  import opened Basics
  import opened Shared
  import opened Collector
  import opened Gui

  /** A browser's connection: after the snapshot is sent it is not yet subscribed, and what is
      broadcast meanwhile is missed. */
  datatype Conn = Closed | Open(subscribed: bool, feed: seq<Envelope>, missed: seq<Envelope>)

  /** `clears` holds the snapshots that api_clear_history has taken and not yet broadcast. */
  datatype Sys = Sys(col: State, board: Board, conn: Conn, clears: map<nat, seq<Alert>>)

  datatype Act =
    | Col(x: Action)
    | ClearTake(t: nat, alerts: seq<Alert>)
    | ClearSend(t: nat)
    | Connect(alerts: seq<Alert>)
    | Subscribe
    | Receive
    | Drop

  function Start(after: U64): Sys { Sys(Init(after), map[], Closed, map[]) }

  /** A list of the alerts of the firing map, in some order. */
  ghost predicate Lists(alerts: seq<Alert>, firing: Firings) {
    && (forall a <- alerts :: a.fingerprint in firing && firing[a.fingerprint] == a)
    && (forall fp <- firing :: firing[fp] in alerts)
  }

  function Emit(conn: Conn, e: Envelope): Conn {
    match conn
    case Closed => Closed
    case Open(true, feed, _) => conn.(feed := feed + [e])
    case Open(false, _, missed) => conn.(missed := missed + [e])
  }

  ghost function Next(s: Sys, act: Act): Sys {
    match act
    case Col(x) =>
      var t := s.(col := Do(s.col, x));
      if x.Send? && Enabled(s.col, x) then t.(conn := Emit(s.conn, AlertEnv(s.col.tasks[x.t].a))) else t
    case ClearTake(t, alerts) =>
      if t !in s.clears && Lists(alerts, s.col.firing) then s.(clears := s.clears[t := alerts]) else s
    case ClearSend(t) =>
      if t in s.clears then s.(conn := Emit(s.conn, SnapshotEnv(s.clears[t])), clears := s.clears - {t}) else s
    case Connect(alerts) =>
      if s.conn.Closed? && Lists(alerts, s.col.firing) then s.(conn := Open(false, [SnapshotEnv(alerts)], [])) else s
    case Subscribe =>
      if s.conn.Open? then s.(conn := s.conn.(subscribed := true, missed := [])) else s
    case Receive =>
      if s.conn.Open? && s.conn.feed != []
      then s.(board := Handle(s.board, s.conn.feed[0]), conn := s.conn.(feed := s.conn.feed[1..]))
      else s
    case Drop => s.(conn := Closed)
  }

  ghost function Play(s: Sys, acts: seq<Act>): Sys
    decreases |acts|
  {
    if acts == [] then s else Play(Next(s, acts[0]), acts[1..])
  }

  /** The collector's own steps. */
  function ColIn(acts: seq<Act>): seq<Action> {
    if acts == [] then [] else (if acts[0].Col? then [acts[0].x] else []) + ColIn(acts[1..])
  }

  /** The collector runs as it does without browsers. */
  lemma {:induction false} CollectorPart(s: Sys, acts: seq<Act>)
    ensures Play(s, acts).col == Run(s.col, ColIn(acts))
    decreases |acts|
  {
    if acts != [] {
      var now, rest := if acts[0].Col? then [acts[0].x] else [], ColIn(acts[1..]);
      CollectorPart(Next(s, acts[0]), acts[1..]);
      if now == [] { NothingAdded(rest); } else { assert (now + rest)[1..] == rest; }
    }
  }

  // ---- Agreement on one fingerprint ----

  /** What the board will show of fp once everything under way has arrived. */
  function Coming(s: Sys, fp: string): bool
    requires s.conn.Open?
  {
    Present(fp in s.board, s.conn.feed, fp)
  }

  function GapComing(s: Sys, fp: string): bool
    requires s.conn.Open?
  {
    Present(Coming(s, fp), s.conn.missed, fp)
  }

  /** Every broadcast about fp still to come says what the firing map says. */
  ghost predicate PendingFits(firing: Firings, tasks: Tasks, fp: string) {
    forall t <- tasks :: Pending(tasks, t, fp) ==> (tasks[t].a.state == Firing <==> fp in firing)
  }

  ghost predicate Agree(s: Sys, fp: string) {
    && KeysFit(s.col.firing)
    && PendingFits(s.col.firing, s.col.tasks, fp)
    && (s.conn.Open? && s.conn.subscribed ==> s.conn.missed == [])
    && (s.conn.Open? && Settled(s.col.tasks, fp) ==> (GapComing(s, fp) <==> fp in s.col.firing))
  }

  /** The last word on fp among the missed broadcasts, if there is one, is what the snapshot said. */
  predicate GapHarmless(s: Sys, fp: string)
    requires s.conn.Open?
  {
    var word := LastWord(s.conn.missed, fp);
    word.None? || word.value == Coming(s, fp)
  }

  /** The three windows in which the code can lose agreement, each closed:
      fp does not come or go while a broadcast about it is pending; what is missed between the snapshot
      and the subscription makes no difference to it; a snapshot broadcast is not stale for it. */
  ghost predicate Calm(s: Sys, act: Act, fp: string) {
    match act
    case Col(x) => InTurn(s.col, x, fp)
    case ClearSend(t) => t in s.clears ==> (LastOf(s.clears[t], fp).Some? <==> fp in s.col.firing)
    case Subscribe => s.conn.Open? ==> GapHarmless(s, fp)
    case _ => true
  }

  ghost predicate AllCalm(s: Sys, acts: seq<Act>, fp: string)
    decreases |acts|
  {
    acts == [] || (Calm(s, acts[0], fp) && AllCalm(Next(s, acts[0]), acts[1..], fp))
  }

  /** How a collector step from (firing, tasks) to (firing', tasks') bears on fp: pending broadcasts stay
      (unless it sends one), new ones say what the map now says, and no change goes without one. */
  ghost predicate Tells(firing: Firings, tasks: Tasks, firing': Firings, tasks': Tasks, fp: string) {
    && KeysFit(firing')
    && (forall t <- tasks :: Pending(tasks, t, fp) ==> Pending(tasks', t, fp))
    && (forall t <- tasks' :: Pending(tasks', t, fp) ==>
          || (Pending(tasks, t, fp) && tasks'[t].a == tasks[t].a)
          || (tasks'[t].a.state == Firing <==> fp in firing'))
    && ((fp in firing <==> fp in firing') || !Settled(tasks', fp))
  }

  /** Task t takes up a change that it has made to the map. */
  lemma {:induction false} ChangeTells(firing: Firings, tasks: Tasks, firing': Firings, t: nat, pc: Pc, fp: string)
    requires KeysFit(firing') && (t in tasks ==> tasks[t].Touched?) && !pc.Touched?
    requires pc.a.fingerprint != fp ==> (fp in firing <==> fp in firing')
    requires pc.a.fingerprint == fp ==> (pc.a.state == Firing <==> fp in firing')
    ensures Tells(firing, tasks, firing', tasks[t := pc], fp)
  {
    if pc.a.fingerprint == fp { assert Pending(tasks[t := pc], t, fp); }
  }

  lemma {:induction false} ApplyTells(c: State, t: nat, a: Alert, fp: string)
    requires KeysFit(c.firing) && (t in c.tasks ==> c.tasks[t].Touched?)
    ensures Tells(c.firing, c.tasks, Apply(c, t, a).firing, Apply(c, t, a).tasks, fp)
  {
    var d := Apply(c, t, a);
    if Changed(c.firing, a) {
      ChangeTells(c.firing, c.tasks, Put(c.firing, a), t, d.tasks[t], fp);
    }
  }

  lemma {:induction false} RemoveTells(firing: Firings, tasks: Tasks, t: nat, k: string, pc: Pc, fp: string)
    requires KeysFit(firing) && t !in tasks && pc.a.fingerprint == k && pc.a.state == Resolved && !pc.Touched?
    ensures Tells(firing, tasks, firing - {k}, tasks[t := pc], fp)
  {
    ChangeTells(firing, tasks, firing - {k}, t, pc, fp);
  }

  lemma {:induction false} WatchTells(c: State, id: string, name: string, seen: int, now: int, fp: string)
    requires KeysFit(c.firing) && WATCHER !in c.tasks && id in c.hosts
    ensures var d := WatchHost(c, id, name, seen, now); Tells(c.firing, c.tasks, d.firing, d.tasks, fp)
  {
    var online := Online(now, seen, c.after);
    if !(id in c.lastOnline && c.lastOnline[id] == online) {
      if !online {
        ApplyTells(c, WATCHER, OfflineAlert(name, id, now), fp);
      } else if OfflineFp(id) in c.firing {
        var a := c.firing[OfflineFp(id)].(state := Resolved, ts := now);
        RemoveTells(c.firing, c.tasks, WATCHER, OfflineFp(id), Broadcasting(a), fp);
      }
    }
  }

  /** No change, and at most one more alert read. */
  lemma {:induction false} StayTells(firing: Firings, tasks: Tasks, tasks': Tasks, fp: string)
    requires KeysFit(firing)
    requires forall t <- tasks :: t in tasks' && tasks'[t] == tasks[t]
    requires forall t <- tasks' :: t in tasks || tasks'[t].Touched?
    ensures Tells(firing, tasks, firing, tasks', fp)
  {
  }

  lemma {:induction false} StepTells(c: State, x: Action, fp: string)
    requires KeysFit(c.firing) && Enabled(c, x) && !x.Send?
    ensures Tells(c.firing, c.tasks, Do(c, x).firing, Do(c, x).tasks, fp)
  {
    match x
    case Hello(_, _, _, _) => StayTells(c.firing, c.tasks, c.tasks, fp);
    case Heartbeat(_, _, _) => StayTells(c.firing, c.tasks, c.tasks, fp);
    case IngestTouch(t, a) => StayTells(c.firing, c.tasks, BeginIngest(c, t, a).tasks, fp);
    case IngestApply(t) => ApplyTells(c, t, c.tasks[t].a, fp);
    case SyslogApply(t, a) => ApplyTells(c, t, a, fp);
    case BumpEnd(t) =>
    case ResolveBegin(t, k, now) => RemoveTells(c.firing, c.tasks, t, k, Decrementing(ClosedBy(c.firing[k], now)), fp);
    case ResolveEnd(t) =>
    case TickBegin(_, _) => StayTells(c.firing, c.tasks, c.tasks, fp);
    case Watch =>
      var w := c.tick.left[0];
      WatchTells(Popped(c), w.0, w.1.name, w.1.lastSeen, c.tick.now, fp);
  }

  // ---- Agreement is kept ----

  lemma {:induction false} SendAgrees(s: Sys, t: nat, fp: string)
    requires Agree(s, fp) && Enabled(s.col, Send(t))
    ensures Agree(Next(s, Col(Send(t))), fp)
  {
    var u, a := Next(s, Col(Send(t))), s.col.tasks[t].a;
    assert u.col.tasks == s.col.tasks - {t} && u.col.firing == s.col.firing;
    if s.conn.Open? {
      EmitComing(s, AlertEnv(a), fp);
      if a.fingerprint == fp {
        assert Pending(s.col.tasks, t, fp);
      } else if Settled(u.col.tasks, fp) {
        assert forall v <- s.col.tasks :: v != t ==> v in u.col.tasks;
        assert Settled(s.col.tasks, fp);
      }
    }
  }

  /** A broadcast is the last word on what is coming. */
  lemma {:induction false} EmitComing(s: Sys, e: Envelope, fp: string)
    requires s.conn.Open? && (s.conn.subscribed ==> s.conn.missed == [])
    ensures var u := s.(conn := Emit(s.conn, e));
            && u.conn.Open? && (u.conn.subscribed ==> u.conn.missed == [])
            && GapComing(u, fp) == PresentAfter(GapComing(s, fp), e, fp)
  {
    PresentSnoc(fp in s.board, s.conn.feed, e, fp);
    PresentSnoc(Coming(s, fp), s.conn.missed, e, fp);
  }

  lemma {:induction false} CollectorAgrees(s: Sys, x: Action, fp: string)
    requires Agree(s, fp) && Calm(s, Col(x), fp) && Enabled(s.col, x) && !x.Send?
    ensures Agree(Next(s, Col(x)), fp)
  {
    StepTells(s.col, x, fp);
    var c, d := s.col, Do(s.col, x);
    if Settled(d.tasks, fp) {
      assert forall t <- c.tasks :: Pending(c.tasks, t, fp) ==> Pending(d.tasks, t, fp);
      assert Settled(c.tasks, fp);
    }
  }

  lemma {:induction false} ListsLookUp(alerts: seq<Alert>, firing: Firings, fp: string)
    requires KeysFit(firing) && Lists(alerts, firing)
    ensures LastOf(alerts, fp).Some? <==> fp in firing
  {
    LastOfFinds(alerts, fp);
    if fp in firing { assert firing[fp] in alerts; }
  }

  lemma {:induction false} LastOfFinds(alerts: seq<Alert>, fp: string)
    ensures var a := LastOf(alerts, fp); a.Some? ==> a.value in alerts && a.value.fingerprint == fp
    ensures forall a <- alerts :: a.fingerprint == fp ==> LastOf(alerts, fp).Some?
  {
    if alerts != [] {
      var before := alerts[..|alerts| - 1];
      LastOfFinds(before, fp);
      assert forall a <- alerts :: a in before || a == alerts[|alerts| - 1];
    }
  }

  lemma SnapshotAgrees(s: Sys, alerts: seq<Alert>, fp: string)
    requires KeysFit(s.col.firing) && Lists(alerts, s.col.firing) && s.conn.Closed?
    ensures var u := Next(s, Connect(alerts)); u.conn.Open? && (GapComing(u, fp) <==> fp in s.col.firing)
  {
    ListsLookUp(alerts, s.col.firing, fp);
    PresentOne(fp in s.board, SnapshotEnv(alerts), fp);
  }

  lemma {:induction false} StepAgrees(s: Sys, act: Act, fp: string)
    requires Agree(s, fp) && Calm(s, act, fp)
    ensures Agree(Next(s, act), fp)
  {
    match act
    case Col(x) =>
      if Enabled(s.col, x) {
        if x.Send? { SendAgrees(s, x.t, fp); } else { CollectorAgrees(s, x, fp); }
      }
    case ClearTake(_, _) =>
    case ClearSend(t) =>
      if t in s.clears && s.conn.Open? { EmitComing(s, SnapshotEnv(s.clears[t]), fp); }
    case Connect(alerts) =>
      if s.conn.Closed? && Lists(alerts, s.col.firing) { SnapshotAgrees(s, alerts, fp); }
    case Subscribe =>
      if s.conn.Open? { LastWordDecides(Coming(s, fp), s.conn.missed, fp); }
    case Receive =>
      if s.conn.Open? && s.conn.feed != [] { PresenceHandled(s.board, s.conn.feed[0], fp); }
    case Drop =>
  }

  lemma {:induction false} AgreeThroughout(s: Sys, acts: seq<Act>, fp: string)
    requires Agree(s, fp) && AllCalm(s, acts, fp)
    ensures Agree(Play(s, acts), fp)
    decreases |acts|
  {
    if acts != [] {
      StepAgrees(s, acts[0], fp);
      AgreeThroughout(Next(s, acts[0]), acts[1..], fp);
    }
  }

  /** After any calm run, whenever nothing is under way the board of a subscribed browser shows a
      fingerprint iff it is firing. */
  lemma ReplicaAgrees(after: U64, acts: seq<Act>, fp: string)
    requires AllCalm(Start(after), acts, fp)
    ensures var s := Play(Start(after), acts);
            s.conn.Open? && s.conn.subscribed && s.conn.feed == [] && Settled(s.col.tasks, fp) ==>
              (fp in s.board <==> fp in s.col.firing)
  {
    AgreeThroughout(Start(after), acts, fp);
  }

  /** Whatever went wrong before, a reconnect restores agreement on every fingerprint with no broadcast pending. */
  lemma ReconnectRestores(s: Sys, alerts: seq<Alert>, fp: string)
    requires KeysFit(s.col.firing) && s.conn.Closed? && Settled(s.col.tasks, fp) && Lists(alerts, s.col.firing)
    ensures Agree(Next(s, Connect(alerts)), fp)
  {
    SnapshotAgrees(s, alerts, fp);
  }

  /** Subscribing after the snapshot keeps agreement exactly when the gap was harmless. */
  lemma GapExactly(s: Sys, fp: string)
    requires Agree(s, fp) && s.conn.Open? && !s.conn.subscribed && Settled(s.col.tasks, fp)
    ensures Agree(Next(s, Subscribe), fp) <==> GapHarmless(s, fp)
  {
    LastWordDecides(Coming(s, fp), s.conn.missed, fp);
  }
}
