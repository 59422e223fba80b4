/** The whole chain: one module's tracker, the two lanes, the collector, one browser. Everybody else
    - other modules and hosts, syslog, the watcher, operators, other browsers - acts freely beside it. */
module Pipeline {
  import opened Basics
  import opened Shared
  import T = Tracker
  import X = Transport
  import C = Collector
  import R = Replica
  import K = Tasks

  /** The collector serves this agent's connection, message after message, in task 0. */
  const CONN: nat := 0

  datatype Chain = Chain(tracker: T.Entries, link: X.Link, sys: R.Sys)

  datatype Step =
    | Track(c: T.Call)
    | Other(m: X.Outbound)
    | Poll
    | ShipOk
    | Connect
    | Deliver
    | Break
    | Rep(r: R.Act)

  /** The fixed surroundings of a run: settings, this host's id, which fingerprints are this tracker's,
      and the severities that each of them may be observed with. */
  datatype World = World(cfg: T.Config, lim: X.Limits, me: string, own: string -> bool, sevs: string -> set<Severity>)

  /** What the connection task does with a frame as it reads it. */
  function Receipt(m: X.Outbound): R.Act { R.Col(K.MessageSteps(CONN, m)[0]) }

  ghost function Next(w: World, p: Chain, x: Step): Chain {
    match x
    case Track(c) =>
      var (tracker, out) := T.Step(w.cfg, p.tracker, c);
      p.(tracker := tracker, link := if out.Some? then X.Do(w.lim, p.link, X.Send(X.AlertMsg(out.value))) else p.link)
    case Other(m) => p.(link := X.Do(w.lim, p.link, X.Send(m)))
    case Poll => p.(link := X.Do(w.lim, p.link, X.Poll))
    case ShipOk => p.(link := X.Do(w.lim, p.link, X.ShipOk))
    case Connect => p.(link := X.Do(w.lim, p.link, X.Connect))
    case Deliver =>
      if p.link.wire != [] && CONN !in p.sys.col.tasks then
        p.(link := X.Do(w.lim, p.link, X.Deliver), sys := R.Next(p.sys, Receipt(p.link.wire[0])))
      else p
    case Break => p.(link := X.Do(w.lim, p.link, X.Break))
    case Rep(r) => p.(sys := R.Next(p.sys, r))
  }

  ghost function Run(w: World, p: Chain, xs: seq<Step>): Chain
    decreases |xs|
  {
    if xs == [] then p else Run(w, Next(w, p, xs[0]), xs[1..])
  }

  function Start(after: U64): Chain { Chain(map[], X.IDLE, R.Start(after)) }

  // ---- The chain is its parts ----

  /** The calls made on the tracker. */
  function CallsIn(xs: seq<Step>): seq<T.Call> {
    if xs == [] then [] else (if xs[0].Track? then [xs[0].c] else []) + CallsIn(xs[1..])
  }

  /** A frame is read when there is one and the connection task is done with the one before it. */
  ghost predicate Reads(p: Chain, x: Step) { x.Deliver? && p.link.wire != [] && CONN !in p.sys.col.tasks }

  /** What a step does on the link: modules send the alerts that their tracker hands back, and other messages. */
  ghost function LinkActs(w: World, p: Chain, x: Step): seq<X.Act> {
    match x
    case Track(c) =>
      var out := T.Step(w.cfg, p.tracker, c).1;
      if out.Some? then [X.Send(X.AlertMsg(out.value))] else []
    case Other(m) => [X.Send(m)]
    case Poll => [X.Poll]
    case ShipOk => [X.ShipOk]
    case Connect => [X.Connect]
    case Deliver => if Reads(p, x) then [X.Deliver] else []
    case Break => [X.Break]
    case Rep(_) => []
  }

  /** What a step does at the collector and the browser. */
  ghost function SysActs(p: Chain, x: Step): seq<R.Act> {
    if Reads(p, x) then [Receipt(p.link.wire[0])] else if x.Rep? then [x.r] else []
  }

  ghost function LinkActsIn(w: World, p: Chain, xs: seq<Step>): seq<X.Act>
    decreases |xs|
  {
    if xs == [] then [] else LinkActs(w, p, xs[0]) + LinkActsIn(w, Next(w, p, xs[0]), xs[1..])
  }

  ghost function SysActsIn(w: World, p: Chain, xs: seq<Step>): seq<R.Act>
    decreases |xs|
  {
    if xs == [] then [] else SysActs(p, xs[0]) + SysActsIn(w, Next(w, p, xs[0]), xs[1..])
  }

  lemma {:induction false} TrackerPart(w: World, p: Chain, xs: seq<Step>, made: seq<T.Call>)
    requires p.tracker == T.After(w.cfg, made)
    ensures Run(w, p, xs).tracker == T.After(w.cfg, made + CallsIn(xs))
    decreases |xs|
  {
    if xs == [] {
      NothingAdded(made);
    } else {
      var now := if xs[0].Track? then [xs[0].c] else [];
      if xs[0].Track? { T.HistorySnoc(w.cfg, made, xs[0].c); } else { NothingAdded(made); }
      TrackerPart(w, Next(w, p, xs[0]), xs[1..], made + now);
      Regroup(made, now, CallsIn(xs[1..]));
    }
  }

  lemma {:induction false} LinkPart(w: World, p: Chain, xs: seq<Step>)
    ensures Run(w, p, xs).link == X.Run(w.lim, p.link, LinkActsIn(w, p, xs))
    decreases |xs|
  {
    if xs != [] {
      var now, rest := LinkActs(w, p, xs[0]), LinkActsIn(w, Next(w, p, xs[0]), xs[1..]);
      LinkPart(w, Next(w, p, xs[0]), xs[1..]);
      if now == [] { NothingAdded(rest); } else { assert (now + rest)[1..] == rest; }
    }
  }

  lemma {:induction false} SysPart(w: World, p: Chain, xs: seq<Step>)
    ensures Run(w, p, xs).sys == R.Play(p.sys, SysActsIn(w, p, xs))
    decreases |xs|
  {
    if xs != [] {
      var now, rest := SysActs(p, xs[0]), SysActsIn(w, Next(w, p, xs[0]), xs[1..]);
      SysPart(w, Next(w, p, xs[0]), xs[1..]);
      if now == [] { NothingAdded(rest); } else { assert (now + rest)[1..] == rest; }
    }
  }

  /** Each part of the chain runs as it does alone, so everything that is proved of every run of the tracker, of the
      link, and of collector and browser, holds in the chain. */
  lemma ChainIsItsParts(w: World, after: U64, xs: seq<Step>)
    ensures var p := Run(w, Start(after), xs);
            && p.tracker == T.After(w.cfg, CallsIn(xs))
            && p.link == X.Run(w.lim, X.IDLE, LinkActsIn(w, Start(after), xs))
            && p.sys == R.Play(R.Start(after), SysActsIn(w, Start(after), xs))
            && p.sys.col == C.Run(C.Init(after), R.ColIn(SysActsIn(w, Start(after), xs)))
  {
    R.CollectorPart(R.Start(after), SysActsIn(w, Start(after), xs));
    TrackerPart(w, Start(after), xs, []);
    NothingAdded(CallsIn(xs));
    LinkPart(w, Start(after), xs);
    SysPart(w, Start(after), xs);
  }

  // ---- What the theorem assumes of a run ----

  function LaneFor(s: Severity): X.Lane { if s == Severity.Critical then X.CriticalLane else X.NormalLane }

  /** The lane of a fingerprint, if all its severities go by one. */
  function KeyLane(w: World, k: string): X.Lane {
    if Severity.Critical in w.sevs(k) then X.CriticalLane else X.NormalLane
  }

  ghost predicate OneLane(w: World, k: string) { forall s <- w.sevs(k) :: LaneFor(s) == KeyLane(w, k) }

  /** A collector action that is not this agent's: it may do anything, except to this tracker's
      fingerprints (an operator's resolve of one of them is what the theorem excludes). */
  predicate Foreign(w: World, c: C.State, x: C.Action) {
    match x
    case Hello(id, _, _, maintenance) => id == w.me ==> !maintenance
    case Heartbeat(_, _, _) => true
    case IngestTouch(t, a) => t != CONN && !w.own(a.fingerprint)
    case SyslogApply(t, a) => t != CONN && !w.own(a.fingerprint)
    case ResolveBegin(t, fp, _) => t != CONN && !w.own(fp)
    case Watch => c.tick.left != [] ==> !w.own(C.OfflineFp(c.tick.left[0].0))
    case _ => true
  }

  /** No loss, no operator, no maintenance: what is sent finds room, and the connection breaks only when
      nothing is in hand, unread or still being handled. */
  predicate Benign(w: World, p: Chain, x: Step) {
    match x
    case Track(c) =>
      && w.own(c.Key()) && CallFits(w, c)
      && var out := T.Step(w.cfg, p.tracker, c).1;
         out.Some? ==> X.HasRoom(w.lim, p.link, X.AlertMsg(out.value))
    case Other(m) =>
      && (m.AlertMsg? ==> !w.own(m.a.fingerprint))
      && Serviceable(w, m)
    case Break => p.link.flight.None? && p.link.wire == [] && CONN !in p.sys.col.tasks
    case Rep(r) => r.Col? ==> Foreign(w, p.sys.col, r.x)
    case _ => true
  }

  ghost predicate AllBenign(w: World, p: Chain, xs: seq<Step>)
    decreases |xs|
  {
    xs == [] || (Benign(w, p, xs[0]) && AllBenign(w, Next(w, p, xs[0]), xs[1..]))
  }

  /** The two windows of the browser's side: a stale snapshot broadcast, a harmful subscription gap. */
  ghost predicate BrowserCalm(p: Chain, x: Step, fp: string) {
    x.Rep? && (x.r.ClearSend? || x.r.Subscribe?) ==> R.Calm(p.sys, x.r, fp)
  }

  ghost predicate AllBrowserCalm(w: World, p: Chain, xs: seq<Step>, fp: string)
    decreases |xs|
  {
    xs == [] || (BrowserCalm(p, xs[0], fp) && AllBrowserCalm(w, Next(w, p, xs[0]), xs[1..], fp))
  }

  // ---- The line of messages from the tracker to the firing map ----

  predicate About(m: X.Outbound, k: string) { m.AlertMsg? && m.a.fingerprint == k }

  /** What the last message about k says. */
  function LastSaid(ms: seq<X.Outbound>, k: string): Option<bool> {
    if ms == [] then None
    else if About(ms[|ms| - 1], k) then Some(ms[|ms| - 1].a.state == Firing)
    else LastSaid(ms[..|ms| - 1], k)
  }

  lemma {:induction false} LastSaidConcat(a: seq<X.Outbound>, b: seq<X.Outbound>, k: string)
    ensures LastSaid(a + b, k) == if LastSaid(b, k).Some? then LastSaid(b, k) else LastSaid(a, k)
  {
    if b == [] {
      assert a + b == a;
    } else {
      assert (a + b)[..|a + b| - 1] == a + b[..|b| - 1];
      LastSaidConcat(a, b[..|b| - 1], k);
    }
  }

  lemma LastSaidOne(m: X.Outbound, k: string)
    ensures LastSaid([m], k) == if About(m, k) then Some(m.a.state == Firing) else None
  {
    assert [m][..0] == [];
  }

  /** A message about something else makes no difference, wherever it is put in. */
  lemma {:induction false} Irrelevant(a: seq<X.Outbound>, m: X.Outbound, b: seq<X.Outbound>, k: string)
    requires !About(m, k)
    ensures LastSaid(a + [m] + b, k) == LastSaid(a + b, k)
  {
    LastSaidConcat(a + [m], b, k);
    LastSaidConcat(a, [m], k);
    LastSaidConcat(a, b, k);
    LastSaidOne(m, k);
  }

  /** The alert that the connection task has read and not yet applied. */
  function Held(tasks: C.Tasks): seq<X.Outbound> {
    if CONN in tasks && tasks[CONN].Touched? then [X.AlertMsg(tasks[CONN].a)] else []
  }

  /** All messages of one lane, and those of either lane past the queues, oldest first. */
  function Line(link: X.Link, held: seq<X.Outbound>, lane: X.Lane): seq<X.Outbound> {
    held + link.wire + X.InHand(link) + X.Queue(link, lane)
  }

  function OtherLane(lane: X.Lane): X.Lane { if lane == X.CriticalLane then X.NormalLane else X.CriticalLane }

  ghost predicate LinkFits(w: World, link: X.Link, held: seq<X.Outbound>, k: string) {
    && (forall m <- X.Queue(link, OtherLane(KeyLane(w, k))) :: !About(m, k))
    && (forall m <- Line(link, held, KeyLane(w, k)) :: About(m, k) ==> m.a.hostId == w.me)
  }

  /** A greeting that would put this host into maintenance is not serviceable. */
  predicate Serviceable(w: World, m: X.Outbound) {
    m.Hello? && m.hostId == w.me ==> !m.maintenance
  }

  ghost predicate HellosFit(w: World, link: X.Link) {
    && (forall m <- link.normal :: Serviceable(w, m))
    && (forall m <- link.critical :: Serviceable(w, m))
    && (forall m <- link.wire :: Serviceable(w, m))
    && (link.flight.Some? ==> Serviceable(w, link.flight.value))
  }

  ghost predicate TrackerFits(w: World, tracker: T.Entries) {
    forall fp <- tracker :: EntryFits(w, tracker[fp], fp)
  }

  /** Only the connection task ever handles k, and this host's frames are not ignored. */
  ghost predicate TasksFit(w: World, col: C.State, k: string) {
    && (forall t <- col.tasks :: col.tasks[t].a.fingerprint == k ==> t == CONN)
    && !C.InMaintenance(col.hosts, w.me)
  }

  /** The firing map, brought up to date by the line, holds k iff the tracker does. */
  ghost predicate InStep(w: World, p: Chain, k: string) {
    var held := Held(p.sys.col.tasks);
    LastSaid(Line(p.link, held, KeyLane(w, k)), k).GetOr(k in p.sys.col.firing) == (k in p.tracker)
  }

  ghost predicate Inv(w: World, p: Chain, k: string) {
    && TrackerFits(w, p.tracker)
    && LinkFits(w, p.link, Held(p.sys.col.tasks), k)
    && HellosFit(w, p.link)
    && TasksFit(w, p.sys.col, k)
    && InStep(w, p, k)
  }

  // ---- The tracker's end ----

  ghost predicate EntryFits(w: World, e: T.Entry, fp: string) {
    e.template.Fp() == fp && e.template.hostId == w.me && e.severity in w.sevs(fp)
  }

  predicate CallFits(w: World, c: T.Call) {
    c.Observe? ==> c.b.hostId == w.me && c.b.severity in w.sevs(c.Key())
  }

  /** A call's alert is about its key, has one of the key's severities, and says whether an entry is left. */
  lemma {:induction false} TouchStep(w: World, prior: Option<T.Entry>, c: T.Call)
    requires prior.Some? ==> EntryFits(w, prior.value, c.Key())
    requires CallFits(w, c)
    ensures var o := T.Touch(w.cfg, prior, c);
            && (o.entry.Some? ==> EntryFits(w, o.entry.value, c.Key()))
            && (o.verdict.Silent? ==> (o.entry.Some? <==> prior.Some?))
    ensures var o := T.Touch(w.cfg, prior, c);
            var out := T.AlertOf(c, o.verdict);
            && (out.Some? <==> !o.verdict.Silent?)
            && (out.Some? ==>
                  && out.value.fingerprint == c.Key() && out.value.hostId == w.me
                  && out.value.severity in w.sevs(c.Key()) && (out.value.state == Firing <==> o.entry.Some?))
  {
  }

  lemma {:induction false} TrackerStep(w: World, m: T.Entries, c: T.Call, k: string)
    requires TrackerFits(w, m) && CallFits(w, c)
    ensures TrackerFits(w, T.Step(w.cfg, m, c).0)
    ensures var out := T.Step(w.cfg, m, c).1;
            out.Some? ==>
              && out.value.fingerprint == c.Key() && out.value.hostId == w.me
              && out.value.severity in w.sevs(c.Key())
    ensures var (n, out) := T.Step(w.cfg, m, c);
            if c.Key() == k && out.Some? then out.value.state == Firing <==> k in n else k in n <==> k in m
  {
    TouchStep(w, T.Lookup(m, c.Key()), c);
  }

  // ---- The lanes ----

  lemma {:induction false} SendOwn(w: World, link: X.Link, held: seq<X.Outbound>, m: X.Outbound, k: string)
    requires LinkFits(w, link, held, k) && OneLane(w, k) && X.HasRoom(w.lim, link, m)
    requires About(m, k) && m.a.severity in w.sevs(k) && m.a.hostId == w.me
    ensures var link' := X.Do(w.lim, link, X.Send(m));
            && LinkFits(w, link', held, k)
            && LastSaid(Line(link', held, KeyLane(w, k)), k) == Some(m.a.state == Firing)
  {
    var lane := KeyLane(w, k);
    var link' := X.Do(w.lim, link, X.Send(m));
    assert Line(link', held, lane) == Line(link, held, lane) + [m];
    assert X.Queue(link', OtherLane(lane)) == X.Queue(link, OtherLane(lane));
  }

  lemma {:induction false} SendOther(w: World, link: X.Link, held: seq<X.Outbound>, m: X.Outbound, k: string)
    requires LinkFits(w, link, held, k) && !About(m, k)
    ensures var link' := X.Do(w.lim, link, X.Send(m));
            && LinkFits(w, link', held, k)
            && LastSaid(Line(link', held, KeyLane(w, k)), k) == LastSaid(Line(link, held, KeyLane(w, k)), k)
  {
    var lane := KeyLane(w, k);
    var link' := X.Do(w.lim, link, X.Send(m));
    if X.Queue(link', lane) == X.Queue(link, lane) {
      assert Line(link', held, lane) == Line(link, held, lane);
    } else {
      assert Line(link', held, lane) == Line(link, held, lane) + [m];
    }
    var o := OtherLane(lane);
    assert X.Queue(link', o) == X.Queue(link, o) || X.Queue(link', o) == X.Queue(link, o) + [m];
  }

  lemma {:induction false} PollLine(w: World, link: X.Link, held: seq<X.Outbound>, k: string)
    requires LinkFits(w, link, held, k)
    ensures var link' := X.Do(w.lim, link, X.Poll);
            && LinkFits(w, link', held, k)
            && LastSaid(Line(link', held, KeyLane(w, k)), k) == LastSaid(Line(link, held, KeyLane(w, k)), k)
  {
    var lane := KeyLane(w, k);
    var link' := X.Do(w.lim, link, X.Poll);
    if link' != link {
      var m, x := link'.flight.value, held + link.wire;
      if X.Queue(link', lane) == X.Queue(link, lane) {
        assert Line(link', held, lane) == x + [m] + X.Queue(link, lane);
        assert Line(link, held, lane) == x + X.Queue(link, lane);
        assert m in X.Queue(link, OtherLane(lane));
        Irrelevant(x, m, X.Queue(link, lane), k);
      } else {
        assert X.Queue(link, lane) == [m] + X.Queue(link', lane);
        assert Line(link', held, lane) == Line(link, held, lane);
      }
    }
  }

  lemma {:induction false} ShipLine(w: World, link: X.Link, held: seq<X.Outbound>, lane: X.Lane)
    ensures Line(X.Do(w.lim, link, X.ShipOk), held, lane) == Line(link, held, lane)
  {
  }

  // ---- The collector's end ----

  /** What a collector action must not do to k: bring it in, take it out, or occupy the connection task. */
  ghost predicate Keeps(firing: C.Firings, tasks: C.Tasks, firing': C.Firings, tasks': C.Tasks, k: string) {
    && (k in firing' <==> k in firing)
    && (forall t <- tasks' :: tasks'[t].a.fingerprint == k ==> t in tasks && tasks[t].a == tasks'[t].a)
    && Held(tasks') == Held(tasks)
  }

  lemma {:induction false} ApplyKeeps(c: C.State, t: nat, a: Alert, k: string)
    requires a.fingerprint != k && t != CONN
    ensures Keeps(c.firing, c.tasks, C.Apply(c, t, a).firing, C.Apply(c, t, a).tasks, k)
  {
  }

  lemma {:induction false} RemoveKeeps(firing: C.Firings, tasks: C.Tasks, t: nat, fp: string, pc: C.Pc, k: string)
    requires fp != k && t != CONN && pc.a.fingerprint == fp
    ensures Keeps(firing, tasks, firing - {fp}, tasks[t := pc], k)
  {
  }

  lemma {:induction false} MoveKeeps(firing: C.Firings, tasks: C.Tasks, t: nat, k: string)
    requires t in tasks && !tasks[t].Touched?
    ensures Keeps(firing, tasks, firing, tasks[t := C.Broadcasting(tasks[t].a)], k)
    ensures Keeps(firing, tasks, firing, tasks - {t}, k)
  {
  }

  lemma {:induction false} ReadKeeps(firing: C.Firings, tasks: C.Tasks, t: nat, a: Alert, k: string)
    requires a.fingerprint != k && t != CONN
    ensures Keeps(firing, tasks, firing, tasks[t := C.Touched(a)], k)
  {
  }

  lemma {:induction false} WatchKeeps(c: C.State, id: string, name: string, seen: int, now: int, k: string)
    requires C.KeysFit(c.firing) && id in c.hosts && C.OfflineFp(id) != k
    ensures var d := C.WatchHost(c, id, name, seen, now); Keeps(c.firing, c.tasks, d.firing, d.tasks, k)
  {
    var fp := C.OfflineFp(id);
    if !(id in c.lastOnline && c.lastOnline[id] == C.Online(now, seen, c.after)) {
      if !C.Online(now, seen, c.after) {
        ApplyKeeps(c, C.WATCHER, C.OfflineAlert(name, id, now), k);
      } else if fp in c.firing {
        var a := c.firing[fp].(state := Resolved, ts := now);
        RemoveKeeps(c.firing, c.tasks, C.WATCHER, fp, C.Broadcasting(a), k);
      }
    }
  }

  lemma {:induction false} StayKeeps(c: C.State, x: C.Action, k: string)
    requires x.Hello? || x.Heartbeat? || x.TickBegin?
    ensures Keeps(c.firing, c.tasks, C.Do(c, x).firing, C.Do(c, x).tasks, k)
  {
    C.FiringLeftAlone(c, x);
    C.TasksLeftAlone(c, x);
  }

  lemma {:induction false} ForeignKeeps(w: World, c: C.State, x: C.Action, k: string)
    requires C.KeysFit(c.firing) && TasksFit(w, c, k) && w.own(k)
    requires C.Enabled(c, x) && Foreign(w, c, x) && x != C.IngestApply(CONN)
    ensures Keeps(c.firing, c.tasks, C.Do(c, x).firing, C.Do(c, x).tasks, k)
  {
    match x
    case Hello(_, _, _, _) => StayKeeps(c, x, k);
    case Heartbeat(_, _, _) => StayKeeps(c, x, k);
    case IngestTouch(t, a) => ReadKeeps(c.firing, c.tasks, t, a, k);
    case IngestApply(t) => ApplyKeeps(c, t, c.tasks[t].a, k);
    case SyslogApply(t, a) => ApplyKeeps(c, t, a, k);
    case ResolveBegin(t, fp, now) =>
      var a := C.ClosedBy(c.firing[fp], now);
      RemoveKeeps(c.firing, c.tasks, t, fp, C.Decrementing(a), k);
    case TickBegin(_, _) => StayKeeps(c, x, k);
    case Watch =>
      var h := c.tick.left[0];
      WatchKeeps(C.Popped(c), h.0, h.1.name, h.1.lastSeen, c.tick.now, k);
    case _ => MovesKeep(c, x, k);
  }

  lemma {:induction false} MovesKeep(c: C.State, x: C.Action, k: string)
    requires C.Enabled(c, x) && (x.BumpEnd? || x.ResolveEnd? || x.Send?)
    ensures Keeps(c.firing, c.tasks, C.Do(c, x).firing, C.Do(c, x).tasks, k)
  {
    C.FiringLeftAlone(c, x);
    MoveKeeps(c.firing, c.tasks, x.t, k);
  }

  /** Nobody puts this host into maintenance. */
  lemma {:induction false} StaysInService(w: World, c: C.State, x: C.Action)
    requires !C.InMaintenance(c.hosts, w.me) && C.Enabled(c, x)
    requires x.Hello? && x.id == w.me ==> !x.maintenance
    ensures !C.InMaintenance(C.Do(c, x).hosts, w.me)
  {
  }

  // ---- Steps of the chain ----

  lemma {:induction false} TrackInv(w: World, p: Chain, c: T.Call, k: string)
    requires Inv(w, p, k) && w.own(k) && OneLane(w, k) && Benign(w, p, Track(c))
    ensures Inv(w, Next(w, p, Track(c)), k)
  {
    TrackerStep(w, p.tracker, c, k);
    var out := T.Step(w.cfg, p.tracker, c).1;
    var held := Held(p.sys.col.tasks);
    if out.Some? {
      var m := X.AlertMsg(out.value);
      HellosKept(w, p.link, X.Send(m));
      if c.Key() == k { SendOwn(w, p.link, held, m, k); } else { SendOther(w, p.link, held, m, k); }
    }
  }

  lemma {:induction false} LinkInv(w: World, p: Chain, x: Step, k: string)
    requires Inv(w, p, k) && w.own(k) && Benign(w, p, x)
    requires x.Other? || x.Poll? || x.ShipOk? || x.Connect? || x.Break?
    ensures Inv(w, Next(w, p, x), k)
  {
    var held := Held(p.sys.col.tasks);
    match x
    case Other(m) =>
      SendOther(w, p.link, held, m, k);
      HellosKept(w, p.link, X.Send(m));
    case Poll =>
      PollLine(w, p.link, held, k);
      HellosKept(w, p.link, X.Poll);
    case ShipOk =>
      ShipLine(w, p.link, held, KeyLane(w, k));
      HellosKept(w, p.link, X.ShipOk);
    case Connect => assert Line(Next(w, p, x).link, held, KeyLane(w, k)) == Line(p.link, held, KeyLane(w, k));
    case Break => assert Line(Next(w, p, x).link, held, KeyLane(w, k)) == Line(p.link, held, KeyLane(w, k));
  }

  lemma ColStep(w: World, p: Chain, x: C.Action)
    ensures var q := Next(w, p, Rep(R.Col(x)));
            q.tracker == p.tracker && q.link == p.link && q.sys.col == C.Do(p.sys.col, x)
  {
  }

  lemma DeliverStep(w: World, p: Chain)
    requires p.link.wire != [] && CONN !in p.sys.col.tasks
    ensures var q := Next(w, p, Deliver);
            && q.tracker == p.tracker && q.link == X.Do(w.lim, p.link, X.Deliver)
            && q.sys.col == C.Do(p.sys.col, Receipt(p.link.wire[0]).x)
  {
  }

  /** Task 0 applies the alert it holds ... */
  lemma {:induction false} ApplyHeld(w: World, c: C.State, k: string)
    requires TasksFit(w, c, k) && C.Enabled(c, C.IngestApply(CONN))
    ensures var d, a := C.Do(c, C.IngestApply(CONN)), c.tasks[CONN].a;
            && TasksFit(w, d, k) && Held(d.tasks) == []
            && (k in d.firing) == (if a.fingerprint == k then a.state == Firing else k in c.firing)
  {
    StaysInService(w, c, C.IngestApply(CONN));
  }

  /** ... and so the head of the line takes effect. */
  lemma {:induction false} ApplyInv(w: World, p: Chain, k: string)
    requires Inv(w, p, k) && C.Enabled(p.sys.col, C.IngestApply(CONN))
    ensures Inv(w, Next(w, p, Rep(R.Col(C.IngestApply(CONN)))), k)
  {
    var c := p.sys.col;
    var d := C.Do(c, C.IngestApply(CONN));
    ApplyHeld(w, c, k);
    HeadTakesEffect(p.link, X.AlertMsg(c.tasks[CONN].a), KeyLane(w, k), k, k in c.firing, k in d.firing);
    LinkFitsTail(w, p.link, Held(c.tasks), k);
    ColStep(w, p, C.IngestApply(CONN));
  }

  lemma {:induction false} HeadTakesEffect(link: X.Link, m: X.Outbound, lane: X.Lane, k: string,
                                           before: bool, after: bool)
    requires after == if About(m, k) then m.a.state == Firing else before
    ensures LastSaid(Line(link, [], lane), k).GetOr(after) == LastSaid(Line(link, [m], lane), k).GetOr(before)
  {
    assert Line(link, [m], lane) == [m] + Line(link, [], lane);
    LastSaidConcat([m], Line(link, [], lane), k);
    LastSaidOne(m, k);
  }

  lemma LinkFitsTail(w: World, link: X.Link, held: seq<X.Outbound>, k: string)
    requires LinkFits(w, link, held, k)
    ensures LinkFits(w, link, [], k)
  {
    var lane := KeyLane(w, k);
    assert Line(link, held, lane) == held + Line(link, [], lane);
  }

  lemma {:induction false} ForeignInv(w: World, p: Chain, x: C.Action, k: string)
    requires Inv(w, p, k) && C.KeysFit(p.sys.col.firing) && w.own(k)
    requires C.Enabled(p.sys.col, x) && Foreign(w, p.sys.col, x) && x != C.IngestApply(CONN)
    ensures Inv(w, Next(w, p, Rep(R.Col(x))), k)
  {
    ForeignKeeps(w, p.sys.col, x, k);
    StaysInService(w, p.sys.col, x);
    ColStep(w, p, x);
  }

  /** The connection task reads a frame: the head of the line is held, or was of no account. */
  lemma {:induction false} ReceiptKeeps(w: World, c: C.State, m: X.Outbound, k: string)
    requires TasksFit(w, c, k) && CONN !in c.tasks && Serviceable(w, m) && (About(m, k) ==> m.a.hostId == w.me)
    ensures var d := C.Do(c, Receipt(m).x);
            && TasksFit(w, d, k) && d.firing == c.firing
            && (Held(d.tasks) == [m] || (Held(d.tasks) == [] && !About(m, k)))
  {
    var x := Receipt(m).x;
    assert C.Enabled(c, x);
    StaysInService(w, c, x);
  }

  lemma {:induction false} DeliverLine(w: World, link: X.Link, held: seq<X.Outbound>, k: string)
    requires LinkFits(w, link, [], k) && link.wire != []
    requires var m := link.wire[0]; held == [m] || (held == [] && !About(m, k))
    ensures var link' := X.Do(w.lim, link, X.Deliver);
            && LinkFits(w, link', held, k)
            && LastSaid(Line(link', held, KeyLane(w, k)), k) == LastSaid(Line(link, [], KeyLane(w, k)), k)
  {
    var lane, m := KeyLane(w, k), link.wire[0];
    var link' := X.Do(w.lim, link, X.Deliver);
    DeliverShifts(w.lim, link, lane);
    if held == [] {
      LinkFitsTail(w, link', [m], k);
      LastSaidConcat([m], Line(link', [], lane), k);
      LastSaidOne(m, k);
    }
  }

  lemma DeliverShifts(lim: X.Limits, link: X.Link, lane: X.Lane)
    requires link.wire != []
    ensures var link' := X.Do(lim, link, X.Deliver);
            && Line(link', [link.wire[0]], lane) == Line(link, [], lane)
            && Line(link', [link.wire[0]], lane) == [link.wire[0]] + Line(link', [], lane)
  {
    var m, rest := link.wire[0], link.wire[1..];
    assert [] + link.wire == [m] + rest;
    PushFront(m, rest, X.InHand(link), X.Queue(link, lane));
  }

  lemma PushFront(m: X.Outbound, a: seq<X.Outbound>, b: seq<X.Outbound>, c: seq<X.Outbound>)
    ensures [m] + a + b + c == [m] + ([] + a + b + c)
  {
    assert [] + a == a;
    assert [m] + a + b == [m] + (a + b);
  }

  lemma {:induction false} DeliverInv(w: World, p: Chain, k: string)
    requires Inv(w, p, k) && p.link.wire != [] && CONN !in p.sys.col.tasks
    ensures Inv(w, Next(w, p, Deliver), k)
  {
    var m, c := p.link.wire[0], p.sys.col;
    assert m in Line(p.link, [], KeyLane(w, k));
    ReceiptKeeps(w, c, m, k);
    var d := C.Do(c, Receipt(m).x);
    DeliverLine(w, p.link, Held(d.tasks), k);
    assert Held(c.tasks) == [];
    HellosKept(w, p.link, X.Deliver);
    DeliverStep(w, p);
  }

  lemma {:induction false} HellosKept(w: World, link: X.Link, act: X.Act)
    requires HellosFit(w, link) && (act.Send? ==> Serviceable(w, act.m))
    ensures HellosFit(w, X.Do(w.lim, link, act))
  {
  }

  lemma {:induction false} RepInv(w: World, p: Chain, r: R.Act, k: string)
    requires Inv(w, p, k) && C.KeysFit(p.sys.col.firing) && w.own(k) && Benign(w, p, Rep(r))
    ensures Inv(w, Next(w, p, Rep(r)), k)
  {
    if r.Col? && C.Enabled(p.sys.col, r.x) {
      if r.x == C.IngestApply(CONN) { ApplyInv(w, p, k); } else { ForeignInv(w, p, r.x, k); }
    } else {
      ColKept(p.sys, r);
    }
  }

  lemma ColKept(s: R.Sys, r: R.Act)
    requires r.Col? ==> !C.Enabled(s.col, r.x)
    ensures R.Next(s, r).col == s.col
  {
  }

  lemma {:induction false} StepInv(w: World, p: Chain, x: Step, k: string)
    requires Inv(w, p, k) && C.KeysFit(p.sys.col.firing) && w.own(k) && OneLane(w, k) && Benign(w, p, x)
    ensures Inv(w, Next(w, p, x), k)
  {
    if x.Track? {
      TrackInv(w, p, x.c, k);
    } else if x.Rep? {
      RepInv(w, p, x.r, k);
    } else if x.Deliver? {
      if p.link.wire != [] && CONN !in p.sys.col.tasks { DeliverInv(w, p, k); }
    } else {
      LinkInv(w, p, x, k);
    }
  }

  // ---- The browser's end ----

  /** Of the collector's actions only task 0's `apply_alert` can bring k in or take it out, and then no
      broadcast about k is pending: the first of the browser's three windows is shut. */
  lemma {:induction false} ChangesAreCalm(w: World, c: C.State, x: C.Action, k: string)
    requires TasksFit(w, c, k) && C.KeysFit(c.firing) && w.own(k) && Foreign(w, c, x)
    ensures C.InTurn(c, x, k)
  {
    if C.Enabled(c, x) {
      if x == C.IngestApply(CONN) {
        assert forall t <- c.tasks :: C.Pending(c.tasks, t, k) ==> t == CONN;
      } else {
        ForeignKeeps(w, c, x, k);
      }
    }
  }

  ghost predicate ChainInv(w: World, p: Chain, k: string) {
    Inv(w, p, k) && C.KeysFit(p.sys.col.firing)
  }

  lemma {:induction false} KeysStayFit(c: C.State, x: C.Action)
    requires C.KeysFit(c.firing)
    ensures C.KeysFit(C.Do(c, x).firing)
  {
    if C.Enabled(c, x) && !x.Send? { R.StepTells(c, x, ""); }
  }

  lemma {:induction false} StepKeysFit(w: World, p: Chain, x: Step)
    requires C.KeysFit(p.sys.col.firing)
    ensures C.KeysFit(Next(w, p, x).sys.col.firing)
  {
    if x.Deliver? && p.link.wire != [] {
      KeysStayFit(p.sys.col, Receipt(p.link.wire[0]).x);
    } else if x.Rep? && x.r.Col? {
      KeysStayFit(p.sys.col, x.r.x);
    }
  }

  lemma {:induction false} ChainThroughout(w: World, p: Chain, xs: seq<Step>, k: string)
    requires ChainInv(w, p, k) && w.own(k) && OneLane(w, k) && AllBenign(w, p, xs)
    ensures ChainInv(w, Run(w, p, xs), k)
    decreases |xs|
  {
    if xs != [] {
      StepInv(w, p, xs[0], k);
      StepKeysFit(w, p, xs[0]);
      ChainThroughout(w, Next(w, p, xs[0]), xs[1..], k);
    }
  }

  lemma {:induction false} StepAgrees(w: World, p: Chain, x: Step, k: string)
    requires ChainInv(w, p, k) && R.Agree(p.sys, k) && w.own(k) && Benign(w, p, x) && BrowserCalm(p, x, k)
    ensures R.Agree(Next(w, p, x).sys, k)
  {
    match x
    case Deliver =>
      if p.link.wire != [] && CONN !in p.sys.col.tasks {
        var m := p.link.wire[0];
        assert m in Line(p.link, [], KeyLane(w, k));
        ReceiptKeeps(w, p.sys.col, m, k);
        R.StepAgrees(p.sys, Receipt(m), k);
      }
    case Rep(r) =>
      if r.Col? { ChangesAreCalm(w, p.sys.col, r.x, k); }
      R.StepAgrees(p.sys, r, k);
    case _ =>
  }

  lemma {:induction false} AgreesThroughout(w: World, p: Chain, xs: seq<Step>, k: string)
    requires ChainInv(w, p, k) && R.Agree(p.sys, k) && w.own(k) && OneLane(w, k)
    requires AllBenign(w, p, xs) && AllBrowserCalm(w, p, xs, k)
    ensures R.Agree(Run(w, p, xs).sys, k)
    decreases |xs|
  {
    if xs != [] {
      StepInv(w, p, xs[0], k);
      StepKeysFit(w, p, xs[0]);
      StepAgrees(w, p, xs[0], k);
      AgreesThroughout(w, Next(w, p, xs[0]), xs[1..], k);
    }
  }

  lemma StartFits(w: World, after: U64, k: string)
    ensures ChainInv(w, Start(after), k) && R.Agree(Start(after).sys, k)
  {
    assert Line(X.IDLE, [], KeyLane(w, k)) == [];
  }

  /** Nothing of this tracker's is left on the way to the firing map. */
  ghost predicate Drained(p: Chain) {
    p.link.normal == [] && p.link.critical == [] && p.link.flight == None && p.link.wire == []
    && Held(p.sys.col.tasks) == []
  }

  /** Tracker and collector: once both lanes are drained, whatever the interleaving, the fingerprints of
      this tracker that go by one lane are firing at the collector exactly if the tracker holds them. */
  lemma TrackerAgreement(w: World, after: U64, xs: seq<Step>)
    requires AllBenign(w, Start(after), xs) && Drained(Run(w, Start(after), xs))
    ensures var p := Run(w, Start(after), xs);
            forall k | w.own(k) && OneLane(w, k) :: k in p.sys.col.firing <==> k in p.tracker
  {
    var p := Run(w, Start(after), xs);
    forall k | w.own(k) && OneLane(w, k) ensures k in p.sys.col.firing <==> k in p.tracker {
      StartFits(w, after, k);
      ChainThroughout(w, Start(after), xs, k);
      assert Line(p.link, [], KeyLane(w, k)) == [];
    }
  }

  /** Tracker, collector and browser: when the browser too has received everything, all three agree. */
  lemma EndToEndAgreement(w: World, after: U64, xs: seq<Step>, k: string)
    requires AllBenign(w, Start(after), xs) && Drained(Run(w, Start(after), xs))
    requires w.own(k) && OneLane(w, k) && AllBrowserCalm(w, Start(after), xs, k)
    requires var s := Run(w, Start(after), xs).sys;
             s.conn.Open? && s.conn.subscribed && s.conn.feed == [] && C.Settled(s.col.tasks, k)
    ensures var p := Run(w, Start(after), xs);
            && (k in p.tracker <==> k in p.sys.col.firing)
            && (k in p.tracker <==> k in p.sys.board)
  {
    TrackerAgreement(w, after, xs);
    StartFits(w, after, k);
    AgreesThroughout(w, Start(after), xs, k);
  }
}
