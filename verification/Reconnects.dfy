/** Order across connections. The collector serves every connection in a task of its own
    (collector/src/ws_ingest.rs), so frames unread when a connection breaks may still be handled, by the old
    task, after frames of the next connection (agent/src/transport.rs). */
module Reconnects {
  import opened Basics
  import opened Shared
  import opened Transport

  /** The link, whose `arrived` is the order in which the collector handles frames of any connection, and the
      frames that old tasks have not read. */
  datatype Links = Links(cur: Link, stale: seq<seq<Outbound>>)

  datatype Move = Now(act: Act) | Late(i: nat)

  function Next(lim: Limits, s: Links, x: Move): Links {
    match x
    case Now(act) => Links(Do(lim, s.cur, act), if act == Break && s.cur.up then s.stale + [s.cur.wire] else s.stale)
    case Late(i) =>
      if i < |s.stale| && s.stale[i] != [] then
        Links(s.cur.(arrived := s.cur.arrived + [s.stale[i][0]]), s.stale[i := s.stale[i][1..]])
      else s
  }

  function Play(lim: Limits, s: Links, xs: seq<Move>): Links
    decreases |xs|
  {
    if xs == [] then s else Play(lim, Next(lim, s, xs[0]), xs[1..])
  }

  function Sent(xs: seq<Move>, lane: Lane): seq<Outbound> {
    if xs == [] then [] else SentBy(xs[0], lane) + Sent(xs[1..], lane)
  }

  function SentBy(x: Move, lane: Lane): seq<Outbound> { if x.Now? then SentNow(x.act, lane) else [] }

  /** No message of the lane is unread when the connection breaks. */
  predicate CleanBreak(s: Links, x: Move, lane: Lane) { x == Now(Break) && s.cur.up ==> OnLane(s.cur.wire, lane) == [] }

  predicate CleanBreaks(lim: Limits, s: Links, xs: seq<Move>, lane: Lane)
    decreases |xs|
  {
    xs == [] || (CleanBreak(s, xs[0], lane) && CleanBreaks(lim, Next(lim, s, xs[0]), xs[1..], lane))
  }

  lemma {:induction false} InPieces(lim: Limits, s: Links, xs: seq<Move>, ys: seq<Move>, lane: Lane)
    ensures Play(lim, s, xs + ys) == Play(lim, Play(lim, s, xs), ys)
    ensures Sent(xs + ys, lane) == Sent(xs, lane) + Sent(ys, lane)
    ensures CleanBreaks(lim, s, xs + ys, lane)
       <==> CleanBreaks(lim, s, xs, lane) && CleanBreaks(lim, Play(lim, s, xs), ys, lane)
    decreases |xs|
  {
    if xs == [] {
      assert xs + ys == ys;
    } else {
      var s1, rest := Next(lim, s, xs[0]), xs[1..];
      assert (xs + ys)[0] == xs[0] && (xs + ys)[1..] == rest + ys;
      InPieces(lim, s1, rest, ys, lane);
      assert Play(lim, s, xs + ys) == Play(lim, s1, rest + ys) && Play(lim, s, xs) == Play(lim, s1, rest);
      Regroup(SentBy(xs[0], lane), Sent(rest, lane), Sent(ys, lane));
    }
  }

  lemma One(lim: Limits, s: Links, x: Move, lane: Lane)
    ensures Play(lim, s, [x]) == Next(lim, s, x)
    ensures Sent([x], lane) == SentBy(x, lane)
    ensures CleanBreaks(lim, s, [x], lane) <==> CleanBreak(s, x, lane)
  {
    assert [x][1..] == [] && SentBy(x, lane) + [] == SentBy(x, lane);
  }

  // ---- Clean breaks keep order ----

  ghost predicate InOrder(s: Links, lane: Lane, sent: seq<Outbound>) {
    && Sorted(s.cur) && Subsequence(Track(s.cur, lane), sent)
    && forall i :: 0 <= i < |s.stale| ==> OnLane(s.stale[i], lane) == []
  }

  lemma OnLaneHead(ms: seq<Outbound>, lane: Lane)
    requires ms != []
    ensures OnLane(ms, lane) == [] ==> LaneOf(ms[0]) != lane && OnLane(ms[1..], lane) == []
  {
  }

  lemma {:induction false} LateKeepsTrack(s: Link, m: Outbound, lane: Lane)
    requires LaneOf(m) != lane
    ensures Track(s.(arrived := s.arrived + [m]), lane) == Track(s, lane)
  {
    var rest := s.wire + InHand(s);
    Regroup(s.arrived, s.wire, InHand(s));
    Regroup(s.arrived + [m], s.wire, InHand(s));
    OnLaneConcat(s.arrived, rest, lane);
    OnLaneConcat(s.arrived + [m], rest, lane);
    OnLaneConcat(s.arrived, [m], lane);
  }

  lemma {:induction false} MoveInOrder(lim: Limits, s: Links, x: Move, lane: Lane, sent: seq<Outbound>)
    requires InOrder(s, lane, sent) && CleanBreak(s, x, lane)
    ensures InOrder(Next(lim, s, x), lane, sent + SentBy(x, lane))
  {
    match x
    case Now(act) =>
      StepTrack(lim, s.cur, act, lane, sent);
      StepSorted(lim, s.cur, act);
    case Late(i) =>
      assert sent + [] == sent;
      if i < |s.stale| && s.stale[i] != [] {
        OnLaneHead(s.stale[i], lane);
        LateKeepsTrack(s.cur, s.stale[i][0], lane);
      }
  }

  lemma {:induction false} InOrderThroughout(lim: Limits, s: Links, xs: seq<Move>, lane: Lane, sent: seq<Outbound>)
    requires InOrder(s, lane, sent) && CleanBreaks(lim, s, xs, lane)
    ensures InOrder(Play(lim, s, xs), lane, sent + Sent(xs, lane))
    decreases |xs|
  {
    if xs == [] {
      assert sent + [] == sent;
    } else {
      var now := SentBy(xs[0], lane);
      MoveInOrder(lim, s, xs[0], lane, sent);
      InOrderThroughout(lim, Next(lim, s, xs[0]), xs[1..], lane, sent + now);
      Regroup(sent, now, Sent(xs[1..], lane));
    }
  }

  const FRESH := Links(IDLE, [])

  lemma FreshInOrder(lane: Lane)
    ensures InOrder(FRESH, lane, [])
  {
    NothingOnTrack(lane);
  }

  lemma Reached(lim: Limits, xs: seq<Move>, lane: Lane)
    requires CleanBreaks(lim, FRESH, xs, lane)
    ensures InOrder(Play(lim, FRESH, xs), lane, Sent(xs, lane))
  {
    FreshInOrder(lane);
    InOrderThroughout(lim, FRESH, xs, lane, []);
    NothingAdded(Sent(xs, lane));
  }

  // ---- A break that is not clean can lose it ----

  /** Of this lane the collector has handled a subsequence of what was sent. */
  ghost predicate Handled(s: Links, lane: Lane, sent: seq<Outbound>) { Subsequence(OnLane(s.cur.arrived, lane), sent) }

  /** What comes before something else comes before the end of what it was sent in. */
  lemma {:induction false} SentEarlier(got: seq<Outbound>, m: Outbound, later: seq<Outbound>, sent: seq<Outbound>)
    requires later != [] && Subsequence(got + [m] + later, sent + [m])
    ensures m in sent
  {
    var a, b, p := got + [m] + later, sent + [m], |got|;
    var f: seq<nat> :| Embeds(a, b, f);
    assert f[p] < f[p + 1] < |b| && a[p] == b[f[p]] == m;
    assert b[f[p]] == sent[f[p]];
  }

  /** A message that was sent last and handled before another one of its lane. */
  lemma {:induction false} HandledTooSoon(got: seq<Outbound>, m: Outbound, later: seq<Outbound>, sent: seq<Outbound>)
    requires later != [] && m !in sent
    ensures !Subsequence(got + [m] + later, sent + [m])
  {
    if Subsequence(got + [m] + later, sent + [m]) { SentEarlier(got, m, later, sent); }
  }

  function Probe(lane: Lane, n: int): Outbound {
    if lane == NormalLane then Heartbeat("", "", n)
    else AlertMsg(Builder("", "", "", "", Severity.Critical, None).BuildFiring(n))
  }

  function Stamp(m: Outbound): int {
    match m
    case AlertMsg(a) => a.ts
    case Heartbeat(_, _, ts) => ts
    case Hello(_, _, startedAt, _) => startedAt
  }

  /** There is always something new to send. */
  lemma {:induction false} NewStamp(ms: seq<Outbound>) returns (n: int)
    ensures forall m <- ms :: Stamp(m) < n
  {
    n := 0;
    if ms != [] {
      n := NewStamp(ms[1..]);
      if n <= Stamp(ms[0]) { n := Stamp(ms[0]) + 1; }
      assert forall m <- ms :: m == ms[0] || m in ms[1..];
    }
  }

  predicate Ready(s: Link) { s.up && s.flight == None && s.wire == [] }

  const TRIP: seq<Move> := [Now(Poll)] + [Now(ShipOk)] + [Now(Deliver)]

  function NextUp(s: Link): Outbound
    requires s.critical != [] || s.normal != []
  {
    if s.critical != [] then s.critical[0] else s.normal[0]
  }

  lemma {:induction false} Trip(lim: Limits, s: Links, lane: Lane)
    requires Ready(s.cur) && (s.cur.critical != [] || s.cur.normal != [])
    ensures CleanBreaks(lim, s, TRIP, lane) && Sent(TRIP, lane) == []
    ensures var u := Play(lim, s, TRIP);
            && Ready(u.cur) && u.stale == s.stale && u.cur.arrived == s.cur.arrived + [NextUp(s.cur)]
            && u.cur.critical == (if s.cur.critical != [] then s.cur.critical[1..] else [])
            && u.cur.normal == (if s.cur.critical != [] then s.cur.normal else s.cur.normal[1..])
  {
    var s1 := Next(lim, s, Now(Poll));
    var s2 := Next(lim, s1, Now(ShipOk));
    assert s2.cur.wire == [NextUp(s.cur)];
    InPieces(lim, s, [Now(Poll)] + [Now(ShipOk)], [Now(Deliver)], lane);
    InPieces(lim, s, [Now(Poll)], [Now(ShipOk)], lane);
    One(lim, s, Now(Poll), lane);
    One(lim, s1, Now(ShipOk), lane);
    One(lim, s2, Now(Deliver), lane);
  }

  /** Everything queued is handled. */
  lemma {:induction false} Drains(lim: Limits, s: Links, lane: Lane) returns (xs: seq<Move>)
    requires Ready(s.cur)
    ensures CleanBreaks(lim, s, xs, lane) && Sent(xs, lane) == []
    ensures var u := Play(lim, s, xs); Ready(u.cur) && u.cur.critical == [] && u.cur.normal == [] && u.stale == s.stale
    decreases |s.cur.critical| + |s.cur.normal|
  {
    xs := [];
    if s.cur.critical != [] || s.cur.normal != [] {
      Trip(lim, s, lane);
      var rest := Drains(lim, Play(lim, s, TRIP), lane);
      xs := TRIP + rest;
      InPieces(lim, s, TRIP, rest, lane);
    }
  }

  /** A new message is sent and handled at once. */
  lemma {:induction false} Probes(lim: Limits, s: Links, lane: Lane, m: Outbound)
    requires Ready(s.cur) && s.cur.critical == [] && s.cur.normal == [] && LaneOf(m) == lane && HasRoom(lim, s.cur, m)
    ensures var xs := [Now(Send(m))] + TRIP;
            var u := Play(lim, s, xs);
            && CleanBreaks(lim, s, xs, lane) && Sent(xs, lane) == [m]
            && u.stale == s.stale && u.cur.arrived == s.cur.arrived + [m]
  {
    var s1 := Next(lim, s, Now(Send(m)));
    InPieces(lim, s, [Now(Send(m))], TRIP, lane);
    One(lim, s, Now(Send(m)), lane);
    Trip(lim, s1, lane);
  }

  /** An old task wakes up and handles its frames, up to one of the lane. */
  lemma {:induction false} Lags(lim: Limits, s: Links, i: nat, lane: Lane) returns (xs: seq<Move>, extra: seq<Outbound>)
    requires i < |s.stale| && OnLane(s.stale[i], lane) != []
    ensures CleanBreaks(lim, s, xs, lane) && Sent(xs, lane) == []
    ensures Play(lim, s, xs).cur.arrived == s.cur.arrived + extra && OnLane(extra, lane) != []
    decreases |s.stale[i]|
  {
    var m := s.stale[i][0];
    xs, extra := [Late(i)], [m];
    One(lim, s, Late(i), lane);
    var s1 := Next(lim, s, Late(i));
    assert s1.cur.arrived == s.cur.arrived + [m] && s1.stale[i] == s.stale[i][1..];
    if LaneOf(m) != lane {
      var rest, more := Lags(lim, s1, i, lane);
      InPieces(lim, s, [Late(i)], rest, lane);
      Regroup(s.cur.arrived, [m], more);
      OnLaneConcat([m], more, lane);
      xs, extra := [Late(i)] + rest, [m] + more;
    }
  }

  predicate CanSend(lim: Limits) { !lim.suppress && lim.normal > 0 && lim.critical > 0 }

  /** The agent reconnects, gets rid of its queues and sends a new message, which is handled. */
  lemma {:induction false} Rejoins(lim: Limits, t: Links, lane: Lane, sent: seq<Outbound>)
    returns (xs: seq<Move>, got: seq<Outbound>, m: Outbound)
    requires CanSend(lim) && !t.cur.up && t.cur.flight == None && t.cur.wire == []
    ensures CleanBreaks(lim, t, xs, lane) && Sent(xs, lane) == [m] && m !in sent && LaneOf(m) == lane
    ensures Play(lim, t, xs).stale == t.stale && Play(lim, t, xs).cur.arrived == got + [m]
  {
    var up := [Now(Connect)];
    One(lim, t, Now(Connect), lane);
    var t1 := Next(lim, t, Now(Connect));
    var drain := Drains(lim, t1, lane);
    var t2 := Play(lim, t1, drain);
    var n := NewStamp(sent);
    m, got := Probe(lane, n), t2.cur.arrived;
    assert Stamp(m) == n;
    Probes(lim, t2, lane, m);
    var probe := [Now(Send(m))] + TRIP;
    xs := up + drain + probe;
    InPieces(lim, t, up, drain, lane);
    InPieces(lim, t, up + drain, probe, lane);
  }

  lemma {:induction false} UncleanBreakLoses(lim: Limits, s: Links, lane: Lane, sent: seq<Outbound>)
    returns (xs: seq<Move>)
    requires CanSend(lim) && s.cur.up && OnLane(s.cur.wire, lane) != []
    ensures var t := Next(lim, s, Now(Break));
            CleanBreaks(lim, t, xs, lane) && !Handled(Play(lim, t, xs), lane, sent + Sent(xs, lane))
  {
    var t := Next(lim, s, Now(Break));
    var rejoin, got, m := Rejoins(lim, t, lane, sent);
    var u := Play(lim, t, rejoin);
    var lag, extra := Lags(lim, u, |s.stale|, lane);
    xs := rejoin + lag;
    InPieces(lim, t, rejoin, lag, lane);
    assert Sent(xs, lane) == [m];
    OnLaneThree(got, m, extra, lane);
    HandledTooSoon(OnLane(got, lane), m, OnLane(extra, lane), sent);
  }

  lemma OnLaneThree(a: seq<Outbound>, m: Outbound, b: seq<Outbound>, lane: Lane)
    requires LaneOf(m) == lane
    ensures OnLane(a + [m] + b, lane) == OnLane(a, lane) + [m] + OnLane(b, lane)
  {
    OnLaneConcat(a + [m], b, lane);
    OnLaneConcat(a, [m], lane);
  }

  /** After a run with clean breaks, a break leaves what is handled of a lane a subsequence of what is sent on
      it, however the run goes on with clean breaks, if and only if no message of the lane is unread then. */
  lemma {:induction false} CleanBreakExactly(lim: Limits, xs: seq<Move>, lane: Lane)
    requires CanSend(lim) && CleanBreaks(lim, FRESH, xs, lane) && Play(lim, FRESH, xs).cur.up
    ensures var s, sent := Play(lim, FRESH, xs), Sent(xs, lane);
            var t := Next(lim, s, Now(Break));
            (forall ys | CleanBreaks(lim, t, ys, lane) :: Handled(Play(lim, t, ys), lane, sent + Sent(ys, lane)))
              <==> OnLane(s.cur.wire, lane) == []
  {
    var s, sent := Play(lim, FRESH, xs), Sent(xs, lane);
    var t := Next(lim, s, Now(Break));
    if OnLane(s.cur.wire, lane) == [] {
      Reached(lim, xs, lane);
      MoveInOrder(lim, s, Now(Break), lane, sent);
      assert sent + [] == sent;
      forall ys | CleanBreaks(lim, t, ys, lane) ensures Handled(Play(lim, t, ys), lane, sent + Sent(ys, lane)) {
        InOrderThroughout(lim, t, ys, lane, sent);
        ArrivedHeadsTrack(Play(lim, t, ys).cur, lane, sent + Sent(ys, lane));
      }
    } else {
      var ys := UncleanBreakLoses(lim, s, lane, sent);
    }
  }

  /** Whatever overflows and fails: as long as every break finds no message of a lane unread, what the
      collector handles of the lane, in whatever tasks, is a subsequence of what was sent on it. */
  lemma LaneOrderAcross(lim: Limits, xs: seq<Move>, lane: Lane)
    requires CleanBreaks(lim, FRESH, xs, lane)
    ensures Handled(Play(lim, FRESH, xs), lane, Sent(xs, lane))
  {
    Reached(lim, xs, lane);
    ArrivedHeadsTrack(Play(lim, FRESH, xs).cur, lane, Sent(xs, lane));
  }
}
