/** The two-lane path from the modules to the collector: agent/src/bus.rs and agent/src/transport.rs. */
module Transport {
  import opened Basics
  import opened Shared

  datatype Outbound =
    | AlertMsg(a: Alert)
    | Heartbeat(hostId: string, host: string, ts: int)
    | Hello(hostId: string, host: string, startedAt: int, maintenance: bool)

  datatype Lane = NormalLane | CriticalLane

  function LaneOf(m: Outbound): Lane {
    if m.AlertMsg? && m.a.severity == Severity.Critical then CriticalLane else NormalLane
  }

  /** Queue capacities and the maintenance flag of the sink. */
  datatype Limits = Limits(normal: nat, critical: nat, suppress: bool)

  /** Both queues, the message that `pump` holds in its hand, the frames written to the socket and
      not yet read by the collector, and those read. */
  datatype Link = Link(
    normal: seq<Outbound>, critical: seq<Outbound>, flight: Option<Outbound>, up: bool,
    wire: seq<Outbound>, arrived: seq<Outbound>)

  const IDLE := Link([], [], None, false, [], [])

  /** Break is a failed ship, a read error or a close: the message in hand and all unread frames are lost. */
  datatype Act = Send(m: Outbound) | Connect | Poll | ShipOk | Deliver | Break

  /** A bounded channel: when it is full the new message is the one that is lost. */
  function Offer(q: seq<Outbound>, cap: nat, m: Outbound): seq<Outbound> {
    if |q| < cap then q + [m] else q
  }

  predicate Suppressed(lim: Limits, m: Outbound) { lim.suppress && m.AlertMsg? }

  function Do(lim: Limits, s: Link, act: Act): Link {
    match act
    case Send(m) =>
      if Suppressed(lim, m) then s
      else if LaneOf(m) == CriticalLane then s.(critical := Offer(s.critical, lim.critical, m))
      else s.(normal := Offer(s.normal, lim.normal, m))
    case Connect => s.(up := true)
    case Poll =>
      if !s.up || s.flight.Some? then s
      else if s.critical != [] then s.(flight := Some(s.critical[0]), critical := s.critical[1..])
      else if s.normal != [] then s.(flight := Some(s.normal[0]), normal := s.normal[1..])
      else s
    case ShipOk =>
      if s.up && s.flight.Some?
      then s.(flight := None, wire := s.wire + [s.flight.value])
      else s
    case Deliver =>
      if s.wire != [] then s.(wire := s.wire[1..], arrived := s.arrived + [s.wire[0]]) else s
    case Break =>
      if s.up then s.(up := false, flight := None, wire := []) else s
  }

  function Run(lim: Limits, s: Link, acts: seq<Act>): Link
    decreases |acts|
  {
    if acts == [] then s else Run(lim, Do(lim, s, acts[0]), acts[1..])
  }

  // ---- The objects ----

  class Channel {
    const cap: nat
    var queue: seq<Outbound>

    constructor (cap: nat)
      ensures this.cap == cap && queue == []
    {
      this.cap := cap;
      queue := [];
    }

    method TrySend(m: Outbound) returns (ok: bool)
      modifies this
      ensures ok == (|old(queue)| < cap)
      ensures queue == if |old(queue)| < cap then old(queue) + [m] else old(queue)
    {
      ok := |queue| < cap;
      if ok { queue := queue + [m]; }
    }

    method TryRecv() returns (m: Option<Outbound>)
      modifies this
      ensures old(queue) == [] ==> m == None && queue == []
      ensures old(queue) != [] ==> m == Some(old(queue)[0]) && queue == old(queue)[1..]
    {
      if queue == [] {
        m := None;
      } else {
        m := Some(queue[0]);
        queue := queue[1..];
      }
    }
  }

  /** The sink and the transport task share the two channels. */
  class AgentLink {
    const normal: Channel
    const critical: Channel
    const suppress: bool
    var flight: Option<Outbound>
    var up: bool
    var wire: seq<Outbound>
    ghost var arrived: seq<Outbound>

    ghost predicate Valid() { normal != critical }

    ghost function Lim(): Limits { Limits(normal.cap, critical.cap, suppress) }

    ghost function View(): Link
      reads this, normal, critical
    {
      Link(normal.queue, critical.queue, flight, up, wire, arrived)
    }

    constructor (normal: Channel, critical: Channel, suppress: bool)
      requires normal != critical && normal.queue == [] && critical.queue == []
      ensures Valid() && View() == IDLE && Lim() == Limits(normal.cap, critical.cap, suppress)
    {
      this.normal, this.critical, this.suppress := normal, critical, suppress;
      flight, up, wire, arrived := None, false, [], [];
    }

    /** AlertSink::send: in maintenance alerts are dropped, and nothing else is. Critical alerts, and only they, go
        by the critical lane. What goes by a lane is queued if there is room; the other lane is left alone. */
    method Send(m: Outbound)
      requires Valid()
      modifies normal, critical
      ensures suppress && m.AlertMsg? ==> normal.queue == old(normal.queue) && critical.queue == old(critical.queue)
      ensures !(suppress && m.AlertMsg?) ==>
                var urgent := m.AlertMsg? && m.a.severity == Severity.Critical;
                var (lane, other) := if urgent then (critical, normal) else (normal, critical);
                && lane.queue == old(lane.queue) + (if old(|lane.queue|) < lane.cap then [m] else [])
                && other.queue == old(other.queue)
      ensures View() == Do(Lim(), old(View()), Act.Send(m))
    {
      if suppress {
        if m.AlertMsg? { return; }
      }
      var lane := if m.AlertMsg? && m.a.severity == Severity.Critical then critical else normal;
      var _ := lane.TrySend(m);
    }

    /** One turn of the biased select in `pump`: the critical lane is looked at first. */
    method Poll()
      requires Valid() && up && flight.None?
      modifies this, normal, critical
      ensures old(critical.queue) != [] ==>
                && flight == Some(old(critical.queue)[0]) && critical.queue == old(critical.queue)[1..]
                && normal.queue == old(normal.queue)
      ensures old(critical.queue) == [] && old(normal.queue) != [] ==>
                && flight == Some(old(normal.queue)[0]) && normal.queue == old(normal.queue)[1..]
                && critical.queue == []
      ensures View() == Do(Lim(), old(View()), Act.Poll)
    {
      flight := critical.TryRecv();
      if flight.None? {
        flight := normal.TryRecv();
      }
    }

    /** `ship`, which either writes the frame or ends the session. */
    method Ship(ok: bool)
      requires Valid() && up && flight.Some?
      modifies this
      ensures flight.None? && up == ok && wire == if ok then old(wire) + [old(flight).value] else []
      ensures View() == Do(Lim(), old(View()), if ok then ShipOk else Break)
    {
      if ok {
        wire := wire + [flight.value];
      } else {
        up, wire := false, [];
      }
      flight := None;
    }
  }

  // ---- Order: nothing is duplicated or reordered within a lane ----

  function OnLane(ms: seq<Outbound>, lane: Lane): seq<Outbound> {
    if ms == [] then []
    else (if LaneOf(ms[0]) == lane then [ms[0]] else []) + OnLane(ms[1..], lane)
  }

  /** The messages handed to the sink for one lane during a run. */
  function SentOn(acts: seq<Act>, lane: Lane): seq<Outbound> {
    if acts == [] then []
    else SentNow(acts[0], lane) + SentOn(acts[1..], lane)
  }

  /** `a` is `b` with elements left out: each element of `a` sits at its own, later place in `b`. */
  ghost predicate Embeds(a: seq<Outbound>, b: seq<Outbound>, f: seq<nat>) {
    && |f| == |a|
    && (forall i, j :: 0 <= i < j < |f| ==> f[i] < f[j])
    && (forall i :: 0 <= i < |f| ==> f[i] < |b| && a[i] == b[f[i]])
  }

  ghost predicate Subsequence(a: seq<Outbound>, b: seq<Outbound>) {
    exists f: seq<nat> :: Embeds(a, b, f)
  }

  lemma SubsequenceGrow(a: seq<Outbound>, b: seq<Outbound>, c: seq<Outbound>)
    requires Subsequence(a, b)
    ensures Subsequence(a, b + c)
  {
    var f: seq<nat> :| Embeds(a, b, f);
    assert Embeds(a, b + c, f);
  }

  lemma SubsequenceSnoc(a: seq<Outbound>, b: seq<Outbound>, m: Outbound)
    requires Subsequence(a, b)
    ensures Subsequence(a + [m], b + [m])
  {
    var f: seq<nat> :| Embeds(a, b, f);
    assert Embeds(a + [m], b + [m], f + [|b|]);
  }

  lemma SubsequenceCut(x: seq<Outbound>, y: seq<Outbound>, z: seq<Outbound>, b: seq<Outbound>)
    requires Subsequence(x + y + z, b)
    ensures Subsequence(x + z, b)
  {
    var f: seq<nat> :| Embeds(x + y + z, b, f);
    var g := f[..|x|] + f[|x| + |y|..];
    assert forall i :: |x| <= i < |g| ==> g[i] == f[i + |y|] && (x + z)[i] == (x + y + z)[i + |y|];
    assert Embeds(x + z, b, g);
  }

  lemma {:induction false} OnLaneConcat(a: seq<Outbound>, b: seq<Outbound>, lane: Lane)
    ensures OnLane(a + b, lane) == OnLane(a, lane) + OnLane(b, lane)
  {
    if a == [] {
      assert a + b == b;
    } else {
      assert (a + b)[1..] == a[1..] + b;
      OnLaneConcat(a[1..], b, lane);
      Regroup(if LaneOf(a[0]) == lane then [a[0]] else [], OnLane(a[1..], lane), OnLane(b, lane));
    }
  }

  function InHand(s: Link): seq<Outbound> {
    if s.flight.Some? then [s.flight.value] else []
  }

  function Queue(s: Link, lane: Lane): seq<Outbound> {
    if lane == CriticalLane then s.critical else s.normal
  }

  /** Messages past the queues, oldest first. */
  function Ahead(s: Link): seq<Outbound> { s.arrived + s.wire + InHand(s) }

  /** Everything of one lane that is still in the link or has come out of it, oldest first. */
  function Track(s: Link, lane: Lane): seq<Outbound> { OnLane(Ahead(s), lane) + Queue(s, lane) }

  ghost predicate Sorted(s: Link) {
    && (forall m <- s.critical :: LaneOf(m) == CriticalLane)
    && (forall m <- s.normal :: LaneOf(m) == NormalLane)
  }

  /** Moving a message along does not change the track. */
  lemma {:induction false} PollKeepsTrack(lim: Limits, s: Link, lane: Lane)
    requires Sorted(s) && s.up && s.flight.None? && (s.critical != [] || s.normal != [])
    ensures Track(Do(lim, s, Poll), lane) == Track(s, lane)
  {
    var t := Do(lim, s, Poll);
    var m := t.flight.value;
    var from := if s.critical != [] then CriticalLane else NormalLane;
    assert m == Queue(s, from)[0] && m in Queue(s, from) && LaneOf(m) == from;
    assert Ahead(t) == Ahead(s) + [m];
    assert Queue(s, lane) == if lane == from then [m] + Queue(t, lane) else Queue(t, lane);
    HeadMovesOn(Ahead(s), m, Queue(t, lane), lane);
  }

  lemma {:induction false} HeadMovesOn(ahead: seq<Outbound>, m: Outbound, rest: seq<Outbound>, lane: Lane)
    ensures OnLane(ahead + [m], lane) + rest == OnLane(ahead, lane) + if LaneOf(m) == lane then [m] + rest else rest
  {
    OnLaneConcat(ahead, [m], lane);
    Regroup(OnLane(ahead, lane), OnLane([m], lane), rest);
  }

  lemma ShipKeepsTrack(lim: Limits, s: Link)
    ensures Ahead(Do(lim, s, ShipOk)) == Ahead(s)
  {
  }

  lemma DeliverKeepsTrack(lim: Limits, s: Link)
    ensures Ahead(Do(lim, s, Deliver)) == Ahead(s)
  {
    if s.wire != [] { assert s.arrived + s.wire == s.arrived + [s.wire[0]] + s.wire[1..]; }
  }

  lemma {:induction false} SendExtendsTrack(lim: Limits, s: Link, m: Outbound, lane: Lane)
    requires Sorted(s)
    ensures var t := Track(Do(lim, s, Send(m)), lane);
            t == Track(s, lane) || (LaneOf(m) == lane && t == Track(s, lane) + [m])
  {
    var t := Do(lim, s, Send(m));
    if Queue(t, lane) != Queue(s, lane) {
      assert Queue(t, lane) == Queue(s, lane) + [m];
      assert Track(t, lane) == Track(s, lane) + [m];
    }
  }

  lemma {:induction false} BreakCutsTrack(lim: Limits, s: Link, lane: Lane, sent: seq<Outbound>)
    requires Subsequence(Track(s, lane), sent)
    ensures Subsequence(Track(Do(lim, s, Break), lane), sent)
  {
    if s.up {
      var lost := s.wire + InHand(s);
      assert Ahead(s) == s.arrived + lost;
      OnLaneConcat(s.arrived, lost, lane);
      SubsequenceCut(OnLane(s.arrived, lane), OnLane(lost, lane), Queue(s, lane), sent);
      assert Ahead(Do(lim, s, Break)) == s.arrived;
    }
  }

  function SentNow(act: Act, lane: Lane): seq<Outbound> {
    if act.Send? && LaneOf(act.m) == lane then [act.m] else []
  }

  lemma StepSorted(lim: Limits, s: Link, act: Act)
    requires Sorted(s)
    ensures Sorted(Do(lim, s, act))
  {
  }

  lemma {:induction false} StepTrack(lim: Limits, s: Link, act: Act, lane: Lane, sent: seq<Outbound>)
    requires Sorted(s) && Subsequence(Track(s, lane), sent)
    ensures Subsequence(Track(Do(lim, s, act), lane), sent + SentNow(act, lane))
  {
    if act.Send? {
      SendExtendsTrack(lim, s, act.m, lane);
      SubsequenceGrow(Track(s, lane), sent, SentNow(act, lane));
      if LaneOf(act.m) == lane { SubsequenceSnoc(Track(s, lane), sent, act.m); }
    } else {
      assert sent + SentNow(act, lane) == sent;
      if act == Break {
        BreakCutsTrack(lim, s, lane, sent);
      } else if act == Connect {
        assert Track(Do(lim, s, act), lane) == Track(s, lane);
      } else {
        if Do(lim, s, act) != s {
          match act
          case Poll => PollKeepsTrack(lim, s, lane);
          case ShipOk => ShipKeepsTrack(lim, s);
          case Deliver => DeliverKeepsTrack(lim, s);
        }
      }
    }
  }

  lemma {:induction false} TrackThroughout(lim: Limits, s: Link, acts: seq<Act>, lane: Lane, sent: seq<Outbound>)
    requires Sorted(s) && Subsequence(Track(s, lane), sent)
    ensures Sorted(Run(lim, s, acts))
    ensures Subsequence(Track(Run(lim, s, acts), lane), sent + SentOn(acts, lane))
    decreases |acts|
  {
    if acts == [] {
      assert sent + [] == sent;
    } else {
      StepTrack(lim, s, acts[0], lane, sent);
      StepSorted(lim, s, acts[0]);
      var now := SentNow(acts[0], lane);
      TrackThroughout(lim, Do(lim, s, acts[0]), acts[1..], lane, sent + now);
      Regroup(sent, now, SentOn(acts[1..], lane));
    }
  }

  /** Whatever overflows, fails and reconnects: what arrives from a lane is a subsequence of what was
      sent on it - no duplicates, no reordering. */
  lemma LaneOrder(lim: Limits, acts: seq<Act>, lane: Lane)
    ensures Subsequence(OnLane(Run(lim, IDLE, acts).arrived, lane), SentOn(acts, lane))
  {
    TrackFromIdle(lim, acts, lane);
    NothingAdded(SentOn(acts, lane));
    ArrivedHeadsTrack(Run(lim, IDLE, acts), lane, SentOn(acts, lane));
  }

  lemma TrackFromIdle(lim: Limits, acts: seq<Act>, lane: Lane)
    ensures Subsequence(Track(Run(lim, IDLE, acts), lane), [] + SentOn(acts, lane))
  {
    NothingOnTrack(lane);
    TrackThroughout(lim, IDLE, acts, lane, []);
  }

  lemma {:induction false} ArrivedHeadsTrack(s: Link, lane: Lane, sent: seq<Outbound>)
    requires Subsequence(Track(s, lane), sent)
    ensures Subsequence(OnLane(s.arrived, lane), sent)
  {
    var rest := s.wire + InHand(s);
    assert Ahead(s) == s.arrived + rest;
    OnLaneConcat(s.arrived, rest, lane);
    var x, y := OnLane(s.arrived, lane), OnLane(rest, lane) + Queue(s, lane);
    assert Track(s, lane) == x + y + [];
    SubsequenceCut(x, y, [], sent);
    assert x + [] == x;
  }

  lemma NothingOnTrack(lane: Lane)
    ensures Sorted(IDLE) && Track(IDLE, lane) == [] && Subsequence(Track(IDLE, lane), [])
  {
    var f: seq<nat> := [];
    assert Track(IDLE, lane) == [];
    assert Embeds([], [], f);
  }

  // ---- Loss: what the sink refuses, and nothing else ----

  /** The sink does not drop it for maintenance, and the lane that it goes by is not full. */
  predicate HasRoom(lim: Limits, s: Link, m: Outbound) {
    && !(lim.suppress && m.AlertMsg?)
    && if m.AlertMsg? && m.a.severity == Severity.Critical then |s.critical| < lim.critical
       else |s.normal| < lim.normal
  }

  /** What a step puts on a lane. */
  function TakenNow(lim: Limits, s: Link, act: Act, lane: Lane): seq<Outbound> {
    if act.Send? && HasRoom(lim, s, act.m) then SentNow(act, lane) else []
  }

  /** The messages of a run that the sink took for a lane, oldest first. */
  function TakenOn(lim: Limits, s: Link, acts: seq<Act>, lane: Lane): seq<Outbound>
    decreases |acts|
  {
    if acts == [] then [] else TakenNow(lim, s, acts[0], lane) + TakenOn(lim, Do(lim, s, acts[0]), acts[1..], lane)
  }

  lemma {:induction false} StepTaken(lim: Limits, s: Link, act: Act, lane: Lane)
    requires Sorted(s) && act != Break
    ensures Track(Do(lim, s, act), lane) == Track(s, lane) + TakenNow(lim, s, act, lane)
  {
    var t := Do(lim, s, act);
    if act.Send? {
      assert Queue(t, lane) == Queue(s, lane) + TakenNow(lim, s, act, lane);
      Regroup(OnLane(Ahead(s), lane), Queue(s, lane), TakenNow(lim, s, act, lane));
    } else {
      assert Track(s, lane) + TakenNow(lim, s, act, lane) == Track(s, lane);
      if act == ShipOk {
        ShipKeepsTrack(lim, s);
      } else if act == Deliver {
        DeliverKeepsTrack(lim, s);
      } else if act == Poll && t != s {
        PollKeepsTrack(lim, s, lane);
      }
    }
  }

  lemma {:induction false} TakenThroughout(lim: Limits, s: Link, acts: seq<Act>, lane: Lane)
    requires Sorted(s) && Break !in acts
    ensures Track(Run(lim, s, acts), lane) == Track(s, lane) + TakenOn(lim, s, acts, lane)
    decreases |acts|
  {
    if acts == [] {
      assert Track(s, lane) + [] == Track(s, lane);
    } else {
      assert acts[0] in acts;
      StepTaken(lim, s, acts[0], lane);
      StepSorted(lim, s, acts[0]);
      TakenThroughout(lim, Do(lim, s, acts[0]), acts[1..], lane);
      Regroup(Track(s, lane), TakenNow(lim, s, acts[0], lane), TakenOn(lim, Do(lim, s, acts[0]), acts[1..], lane));
    }
  }

  /** While the connection lasts, whatever overflows: the messages of a lane that have arrived, are under way and
      are queued are together exactly those that the sink took, in order. So the only losses are a new message that
      finds its lane full, and alerts in maintenance. */
  lemma OnlyRefusedIsLost(lim: Limits, acts: seq<Act>, lane: Lane)
    requires Break !in acts
    ensures var t := Run(lim, IDLE, acts);
            OnLane(t.arrived, lane) + OnLane(t.wire + InHand(t), lane) + Queue(t, lane)
            == TakenOn(lim, IDLE, acts, lane)
  {
    NothingOnTrack(lane);
    TakenThroughout(lim, IDLE, acts, lane);
    NothingAdded(TakenOn(lim, IDLE, acts, lane));
    TrackSplits(Run(lim, IDLE, acts), lane);
  }

  /** No break, no maintenance, and room for every message when it is sent. */
  predicate Lossless(lim: Limits, s: Link, acts: seq<Act>)
    decreases |acts|
  {
    acts == [] ||
      (&& acts[0] != Break && (acts[0].Send? ==> HasRoom(lim, s, acts[0].m))
       && Lossless(lim, Do(lim, s, acts[0]), acts[1..]))
  }

  lemma {:induction false} LosslessTaken(lim: Limits, s: Link, acts: seq<Act>, lane: Lane)
    requires Lossless(lim, s, acts)
    ensures Break !in acts && TakenOn(lim, s, acts, lane) == SentOn(acts, lane)
    decreases |acts|
  {
    if acts != [] {
      assert acts == [acts[0]] + acts[1..];
      LosslessTaken(lim, Do(lim, s, acts[0]), acts[1..], lane);
    }
  }

  /** Without loss every message of a lane has arrived, in order, or is still under way in order. */
  lemma NothingLost(lim: Limits, acts: seq<Act>, lane: Lane)
    requires Lossless(lim, IDLE, acts)
    ensures var t := Run(lim, IDLE, acts);
            OnLane(t.arrived, lane) + OnLane(t.wire + InHand(t), lane) + Queue(t, lane) == SentOn(acts, lane)
  {
    LosslessTaken(lim, IDLE, acts, lane);
    OnlyRefusedIsLost(lim, acts, lane);
  }

  lemma TrackSplits(t: Link, lane: Lane)
    ensures Track(t, lane) == OnLane(t.arrived, lane) + OnLane(t.wire + InHand(t), lane) + Queue(t, lane)
  {
    assert Ahead(t) == t.arrived + (t.wire + InHand(t));
    OnLaneConcat(t.arrived, t.wire + InHand(t), lane);
  }

  // ---- Maintenance ----

  predicate NoAlerts(ms: seq<Outbound>) { forall m <- ms :: !m.AlertMsg? }

  /** There is no alert anywhere on the link. */
  predicate AlertFree(s: Link) {
    NoAlerts(s.normal) && NoAlerts(s.critical) && NoAlerts(InHand(s)) && NoAlerts(s.wire) && NoAlerts(s.arrived)
  }

  lemma {:induction false} AlertFreeThroughout(lim: Limits, s: Link, acts: seq<Act>)
    requires lim.suppress && AlertFree(s)
    ensures AlertFree(Run(lim, s, acts))
    decreases |acts|
  {
    if acts != [] {
      AlertFreeThroughout(lim, Do(lim, s, acts[0]), acts[1..]);
    }
  }

  /** In maintenance no alert is ever queued, sent or received, in any run. */
  lemma NoAlertInMaintenance(lim: Limits, acts: seq<Act>)
    requires lim.suppress
    ensures AlertFree(Run(lim, IDLE, acts))
  {
    AlertFreeThroughout(lim, IDLE, acts);
  }

  // ---- Priority ----

  /** Would `pump` take a message of this lane now? */
  predicate Takes(s: Link, lane: Lane) {
    s.up && s.flight.None? && if lane == CriticalLane then s.critical != [] else s.critical == [] && s.normal != []
  }

  /** How many messages `pump` takes off a lane's queue during a run. */
  function Taken(lim: Limits, s: Link, acts: seq<Act>, lane: Lane): nat
    decreases |acts|
  {
    if acts == [] then 0
    else (if acts[0] == Poll && Takes(s, lane) then 1 else 0) + Taken(lim, Do(lim, s, acts[0]), acts[1..], lane)
  }

  /** A queued message is never displaced, whatever is sent and however full the lane: it moves up one
      place for every message taken before it. So an overflow can only lose the new message. */
  lemma {:induction false} QueuedStays(lim: Limits, s: Link, acts: seq<Act>, lane: Lane, k: nat)
    requires k < |Queue(s, lane)| && Taken(lim, s, acts, lane) <= k
    ensures var q, n := Queue(Run(lim, s, acts), lane), Taken(lim, s, acts, lane);
            k - n < |q| && q[k - n] == Queue(s, lane)[k]
    decreases |acts|
  {
    if acts != [] {
      var s1, j := Do(lim, s, acts[0]), if acts[0] == Poll && Takes(s, lane) then k - 1 else k;
      assert j < |Queue(s1, lane)| && Queue(s1, lane)[j] == Queue(s, lane)[k];
      QueuedStays(lim, s1, acts[1..], lane, j);
    }
  }

  predicate NormalInHand(s: Link) { s.flight.Some? && LaneOf(s.flight.value) == NormalLane }

  /** How many normal messages a run writes to the socket. */
  function NormalShipped(lim: Limits, s: Link, acts: seq<Act>): nat
    decreases |acts|
  {
    if acts == [] then 0
    else
      (if acts[0] == ShipOk && s.up && NormalInHand(s) then 1 else 0)
      + NormalShipped(lim, Do(lim, s, acts[0]), acts[1..])
  }

  /** While the critical message at position k waits, the only normal message that can be written is
      the one already in hand. */
  lemma {:induction false} WaitingCritical(lim: Limits, s: Link, acts: seq<Act>, k: nat)
    requires Sorted(s) && k < |s.critical| && Taken(lim, s, acts, CriticalLane) <= k
    ensures var t, taken := Run(lim, s, acts), Taken(lim, s, acts, CriticalLane);
            && k - taken < |t.critical| && t.critical[k - taken] == s.critical[k]
            && NormalShipped(lim, s, acts) + (if NormalInHand(t) then 1 else 0) <= (if NormalInHand(s) then 1 else 0)
    decreases |acts|
  {
    if acts != [] {
      StepSorted(lim, s, acts[0]);
      var j := if acts[0] == Poll && s.up && s.flight.None? then k - 1 else k;
      WaitingCritical(lim, Do(lim, s, acts[0]), acts[1..], j);
    }
  }

  /** However long the normal backlog: from the moment a critical message is queued (behind k others)
      until `pump` takes it up, at most one normal message is written, and what is written next is it. */
  lemma {:induction false} OvertakenAtMostOnce(lim: Limits, s: Link, acts: seq<Act>, k: nat)
    requires Sorted(s) && k < |s.critical| && Taken(lim, s, acts, CriticalLane) == k
    requires var t := Run(lim, s, acts); t.up && t.flight.None?
    ensures var t := Run(lim, s, acts);
            && NormalShipped(lim, s, acts) <= 1
            && Do(lim, t, Poll).flight == Some(s.critical[k])
            && Do(lim, Do(lim, t, Poll), ShipOk).wire == t.wire + [s.critical[k]]
  {
    WaitingCritical(lim, s, acts, k);
  }

  // ---- Reconnect backoff ----

  function Min(a: nat, b: nat): nat { if a <= b then a else b }

  function Pow2(k: nat): nat { if k == 0 then 1 else 2 * Pow2(k - 1) }

  /** saturating_mul(2) on u64. */
  function Doubled(x: U64): U64 { if 2 * x > U64_MAX then U64_MAX else 2 * x }

  /** Sleeps made since the streak began: since the last successful connect, or the first attempt. */
  function SleptBefore(connects: seq<bool>, i: nat): (k: nat)
    requires i < |connects|
    ensures k <= i && (k < i ==> connects[i - k])
    ensures forall j :: i - k < j <= i ==> !connects[j]
  {
    if connects[i] || i == 0 then 0 else SleptBefore(connects, i - 1) + 1
  }

  /** The k-th sleep of a streak, as the loop makes it. */
  function SleepOf(min: U64, max: U64, k: nat): U64 {
    if k == 0 then min else Min(Doubled(SleepOf(min, max, k - 1)), max)
  }

  /** min * 2^k, by doubling. */
  function Grown(min: nat, k: nat): nat { if k == 0 then min else 2 * Grown(min, k - 1) }

  lemma {:induction false} GrownIsPower(min: nat, k: nat)
    ensures Grown(min, k) == Pow2(k) * min
  {
    if k > 0 {
      GrownIsPower(min, k - 1);
    }
  }

  /** Saturation and all: from the second sleep on it is the grown minimum, capped. */
  lemma {:induction false} SleepClosedForm(min: U64, max: U64, k: nat)
    ensures SleepOf(min, max, k) == if k == 0 then min else Min(Grown(min, k), max)
  {
    if k > 0 {
      SleepClosedForm(min, max, k - 1);
    }
  }

  /** The k-th sleep is min(2^k * min, max) for every k exactly when the configured bounds are in order. */
  lemma {:induction false} BackoffClosedForm(min: U64, max: U64)
    ensures (forall k: nat :: SleepOf(min, max, k) == Min(Grown(min, k), max)) <==> min <= max
  {
    if min <= max {
      forall k: nat ensures SleepOf(min, max, k) == Min(Grown(min, k), max) { SleepClosedForm(min, max, k); }
    } else {
      assert SleepOf(min, max, 0) != Min(Grown(min, 0), max);
    }
  }

  /** The sleep after the i-th connect attempt. */
  function SleepAfter(connects: seq<bool>, min: U64, max: U64, i: nat): U64
    requires i < |connects|
  {
    SleepOf(min, max, SleptBefore(connects, i))
  }

  lemma {:induction false} NextSleep(connects: seq<bool>, min: U64, max: U64, i: nat)
    requires i < |connects|
    ensures SleepAfter(connects, min, max, i)
         == if connects[i] || i == 0 then min else Min(Doubled(SleepAfter(connects, min, max, i - 1)), max)
  {
  }

  ghost function Sleeps(connects: seq<bool>, min: U64, max: U64): (ss: seq<nat>)
    ensures |ss| == |connects|
    ensures forall i :: 0 <= i < |connects| ==> ss[i] == SleepAfter(connects, min, max, i)
  {
    seq(|connects|, i requires 0 <= i < |connects| => SleepAfter(connects, min, max, i))
  }

  /** The outer loop of `run` for a finite run of connect attempts. */
  method Reconnect(connects: seq<bool>, min: U64, max: U64) returns (sleeps: seq<nat>)
    ensures |sleeps| == |connects|
    ensures forall i :: 0 <= i < |connects| ==> sleeps[i] == SleepOf(min, max, SleptBefore(connects, i))
    ensures min <= max ==>
              forall i :: 0 <= i < |connects| ==> sleeps[i] == Min(Grown(min, SleptBefore(connects, i)), max)
  {
    sleeps := [];
    var backoff: U64 := min;
    ghost var due := Sleeps(connects, min, max);
    for i := 0 to |connects|
      invariant sleeps == due[..i]
      invariant backoff == if i == 0 then min else Min(Doubled(due[i - 1]), max)
    {
      NextSleep(connects, min, max, i);
      if connects[i] {
        backoff := min;
      }
      sleeps := sleeps + [backoff];
      backoff := Min(Doubled(backoff), max);
    }
    SleepsInClosedForm(connects, min, max);
  }

  lemma SleepsInClosedForm(connects: seq<bool>, min: U64, max: U64)
    ensures min <= max ==>
              forall i :: 0 <= i < |connects| ==>
                Sleeps(connects, min, max)[i] == Min(Grown(min, SleptBefore(connects, i)), max)
  {
    forall i | 0 <= i < |connects| && min <= max
      ensures SleepAfter(connects, min, max, i) == Min(Grown(min, SleptBefore(connects, i)), max)
    {
      SleepClosedForm(min, max, SleptBefore(connects, i));
    }
  }
}
