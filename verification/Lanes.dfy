/** When the agreement of tracker and collector needs all alerts of a fingerprint to go by one lane: exactly
    always. agent/src/state.rs gives a resolve the severity of the first observe, and agent/src/bus.rs picks
    the lane by severity. */
module Lanes {
  import opened Basics
  import opened Shared
  import opened Pipeline
  import T = Tracker
  import X = Transport
  import C = Collector
  import R = Replica
  import K = Tasks

  // ---- Runs in pieces ----

  lemma {:induction false} InPieces(w: World, p: Chain, xs: seq<Step>, ys: seq<Step>)
    ensures Run(w, p, xs + ys) == Run(w, Run(w, p, xs), ys)
    ensures AllBenign(w, p, xs + ys) <==> AllBenign(w, p, xs) && AllBenign(w, Run(w, p, xs), ys)
    decreases |xs|
  {
    if xs == [] {
      assert xs + ys == ys;
    } else {
      assert (xs + ys)[1..] == xs[1..] + ys;
      InPieces(w, Next(w, p, xs[0]), xs[1..], ys);
    }
  }

  lemma One(w: World, p: Chain, x: Step)
    ensures Run(w, p, [x]) == Next(w, p, x)
    ensures AllBenign(w, p, [x]) <==> Benign(w, p, x)
  {
    assert [x][1..] == [];
  }

  lemma Three(w: World, p: Chain, x: Step, y: Step, z: Step)
    ensures Run(w, p, [x, y, z]) == Next(w, Next(w, Next(w, p, x), y), z)
    ensures AllBenign(w, p, [x, y, z])
       <==> Benign(w, p, x) && Benign(w, Next(w, p, x), y) && Benign(w, Next(w, Next(w, p, x), y), z)
  {
    assert [x, y, z] == [x] + [y] + [z];
    InPieces(w, p, [x] + [y], [z]);
    InPieces(w, p, [x], [y]);
    One(w, p, x);
    One(w, Next(w, p, x), y);
    One(w, Next(w, Next(w, p, x), y), z);
  }

  // ---- One message from its queue into the firing map ----

  const FETCH: seq<Step> := [Poll, ShipOk, Deliver]

  const SERVE: seq<Step> := [Rep(R.Col(C.IngestApply(CONN))), Rep(R.Col(C.BumpEnd(CONN))), Rep(R.Col(C.Send(CONN)))]

  /** Connected, with nothing in hand or unread, and no task under way at the collector. */
  predicate Idle(w: World, p: Chain) {
    && p.link.up && p.link.flight == None && p.link.wire == [] && p.sys.col.tasks == map[]
    && !C.InMaintenance(p.sys.col.hosts, w.me)
  }

  /** The queues without the message that `pump` takes next. */
  function Less(link: X.Link): X.Link
    requires link.critical != [] || link.normal != []
  {
    if link.critical != [] then link.(critical := link.critical[1..]) else link.(normal := link.normal[1..])
  }

  function NextUp(link: X.Link): X.Outbound
    requires link.critical != [] || link.normal != []
  {
    if link.critical != [] then link.critical[0] else link.normal[0]
  }

  lemma {:induction false} Fetches(w: World, p: Chain)
    requires Idle(w, p) && (p.link.critical != [] || p.link.normal != []) && NextUp(p.link).AlertMsg?
    ensures AllBenign(w, p, FETCH)
    ensures var q, m := Run(w, p, FETCH), NextUp(p.link);
            && q.tracker == p.tracker && q.link == Less(p.link).(arrived := p.link.arrived + [m])
            && q.sys.col == C.Do(p.sys.col, C.IngestTouch(CONN, m.a))
  {
    Three(w, p, Poll, ShipOk, Deliver);
    var m := NextUp(p.link);
    var p1 := Next(w, p, Poll);
    assert p1 == p.(link := Less(p.link).(flight := Some(m)));
    var p2 := Next(w, p1, ShipOk);
    assert p2.link == Less(p.link).(wire := [m]) && p2.sys == p.sys && p2.tracker == p.tracker;
    DeliverStep(w, p2);
  }

  lemma {:induction false} Serves(w: World, p: Chain)
    ensures AllBenign(w, p, SERVE)
    ensures var q := Run(w, p, SERVE);
            && q.tracker == p.tracker && q.link == p.link
            && q.sys.col == C.Do(C.Do(C.Do(p.sys.col, C.IngestApply(CONN)), C.BumpEnd(CONN)), C.Send(CONN))
  {
    var a, b, c := C.IngestApply(CONN), C.BumpEnd(CONN), C.Send(CONN);
    Three(w, p, Rep(R.Col(a)), Rep(R.Col(b)), Rep(R.Col(c)));
    ColStep(w, p, a);
    ColStep(w, Next(w, p, Rep(R.Col(a))), b);
    ColStep(w, Next(w, Next(w, p, Rep(R.Col(a))), Rep(R.Col(b))), c);
  }

  lemma {:induction false} Ingested(w: World, col: C.State, a: Alert)
    requires col.tasks == map[] && !C.InMaintenance(col.hosts, w.me) && a.hostId == w.me
    ensures var end := C.Run(col, K.IngestSteps(CONN, a));
            end.firing == C.Put(col.firing, a) && end.tasks == map[] && !C.InMaintenance(end.hosts, w.me)
  {
    K.IngestAlone(col, CONN, a);
  }

  /** The message next up arrives and takes effect. */
  lemma {:induction false} Trip(w: World, p: Chain)
    requires Idle(w, p) && (p.link.critical != [] || p.link.normal != [])
    requires NextUp(p.link).AlertMsg? && NextUp(p.link).a.hostId == w.me
    ensures AllBenign(w, p, FETCH + SERVE)
    ensures var q, m := Run(w, p, FETCH + SERVE), NextUp(p.link);
            && Idle(w, q) && q.tracker == p.tracker && q.sys.col.firing == C.Put(p.sys.col.firing, m.a)
            && q.link == Less(p.link).(arrived := p.link.arrived + [m])
  {
    var a := NextUp(p.link).a;
    InPieces(w, p, FETCH, SERVE);
    Fetches(w, p);
    Serves(w, Run(w, p, FETCH));
    C.FourActions(p.sys.col, C.IngestTouch(CONN, a), C.IngestApply(CONN), C.BumpEnd(CONN), C.Send(CONN));
    Ingested(w, p.sys.col, a);
  }

  // ---- Three calls ----

  /** Observed as critical, observed again, milder, once re_notify has passed, then resolved. */
  function Calls(w: World, b: Builder, mild: Severity): (T.Call, T.Call, T.Call) {
    (T.Observe(b.(severity := Severity.Critical), 0, 0), T.Observe(b.(severity := mild), w.cfg.reNotify, 0),
     T.ForceResolve(b.Fp(), w.cfg.reNotify, 0))
  }

  /** All three hand back an alert; the resolve has the severity of the first. */
  lemma {:induction false} ThreeCalls(w: World, b: Builder, mild: Severity)
    ensures var (c1, c2, c3) := Calls(w, b, mild);
            var m1 := T.Step(w.cfg, map[], c1).0;
            var m2 := T.Step(w.cfg, m1, c2).0;
            && T.Step(w.cfg, map[], c1).1 == Some(b.(severity := Severity.Critical).BuildFiring(0))
            && T.Step(w.cfg, m1, c2).1 == Some(b.(severity := mild).BuildFiring(0).(occurrences := 2))
            && T.Step(w.cfg, m2, c3) == (map[], Some(T.BuildResolved(T.TemplateOf(b), Severity.Critical, 2, 0)))
  {
    var k := b.Fp();
    assert b.(severity := Severity.Critical).Fp() == k && b.(severity := mild).Fp() == k;
    assert T.TemplateOf(b.(severity := Severity.Critical)) == T.TemplateOf(b);
    var (c1, c2, c3) := Calls(w, b, mild);
    var m1 := T.Step(w.cfg, map[], c1).0;
    var m2 := T.Step(w.cfg, m1, c2).0;
    assert m2.Keys == {k};
    assert m2 - {k} == map[];
  }

  /** A call whose alert finds room puts it on its lane. */
  lemma {:induction false} Tracked(w: World, p: Chain, c: T.Call)
    requires w.own(c.Key()) && CallFits(w, c) && !w.lim.suppress && Idle(w, p)
    requires T.Step(w.cfg, p.tracker, c).1.Some?
    requires var m := X.AlertMsg(T.Step(w.cfg, p.tracker, c).1.value); X.HasRoom(w.lim, p.link, m)
    ensures AllBenign(w, p, [Track(c)])
    ensures var q, a := Run(w, p, [Track(c)]), T.Step(w.cfg, p.tracker, c).1.value;
            && Idle(w, q) && q.sys == p.sys && q.tracker == T.Step(w.cfg, p.tracker, c).0
            && q.link == if a.severity == Severity.Critical then p.link.(critical := p.link.critical + [X.AlertMsg(a)])
                         else p.link.(normal := p.link.normal + [X.AlertMsg(a)])
  {
    One(w, p, Track(c));
  }

  ghost predicate Disagrees(w: World, after: U64, xs: seq<Step>, k: string) {
    var p := Run(w, Start(after), xs);
    AllBenign(w, Start(after), xs) && Drained(p) && k in p.sys.col.firing && k !in p.tracker
  }

  predicate CanSend(w: World, k: string, b: Builder) {
    w.own(k) && b.Fp() == k && b.hostId == w.me && !w.lim.suppress && w.lim.normal > 0 && w.lim.critical > 0
  }

  lemma Connects(w: World, after: U64)
    ensures AllBenign(w, Start(after), [Connect])
    ensures var p := Run(w, Start(after), [Connect]);
            && Idle(w, p) && p.tracker == map[] && p.sys.col.firing == map[]
            && p.link == X.Link([], [], None, true, [], [])
  {
    One(w, Start(after), Connect);
  }

  /** The critical firing arrives ... */
  function Arriving(w: World, b: Builder, mild: Severity): seq<Step> {
    [Connect] + [Track(Calls(w, b, mild).0)] + (FETCH + SERVE)
  }

  /** ... then the mild one waits in the normal lane while the resolve overtakes it, and comes last. */
  function Overtaken(w: World, b: Builder, mild: Severity): seq<Step> {
    BothSent(w, b, mild) + (FETCH + SERVE) + (FETCH + SERVE)
  }

  function BothSent(w: World, b: Builder, mild: Severity): seq<Step> {
    [Track(Calls(w, b, mild).1)] + [Track(Calls(w, b, mild).2)]
  }

  lemma {:induction false} MixedLanesDisagree(w: World, after: U64, b: Builder, mild: Severity)
    requires CanSend(w, b.Fp(), b) && {Severity.Critical, mild} <= w.sevs(b.Fp()) && mild != Severity.Critical
    ensures Disagrees(w, after, Arriving(w, b, mild) + Overtaken(w, b, mild), b.Fp())
  {
    FirstArrives(w, after, b, mild);
    ResolveOvertakes(w, Run(w, Start(after), Arriving(w, b, mild)), b, mild);
    InPieces(w, Start(after), Arriving(w, b, mild), Overtaken(w, b, mild));
  }

  lemma {:induction false} FirstArrives(w: World, after: U64, b: Builder, mild: Severity)
    requires CanSend(w, b.Fp(), b) && Severity.Critical in w.sevs(b.Fp())
    ensures var p := Run(w, Start(after), Arriving(w, b, mild));
            && AllBenign(w, Start(after), Arriving(w, b, mild))
            && Idle(w, p) && p.link.critical == [] && p.link.normal == []
            && p.tracker == T.Step(w.cfg, map[], Calls(w, b, mild).0).0
  {
    var c1 := Calls(w, b, mild).0;
    ThreeCalls(w, b, mild);
    var xs := [Connect];
    Connects(w, after);
    InPieces(w, Start(after), xs, [Track(c1)]);
    Tracked(w, Run(w, Start(after), xs), c1);
    xs := xs + [Track(c1)];
    InPieces(w, Start(after), xs, FETCH + SERVE);
    Trip(w, Run(w, Start(after), xs));
  }

  /** The second firing and the resolve, each in its lane. */
  lemma {:induction false} BothQueued(w: World, p: Chain, b: Builder, mild: Severity)
    requires CanSend(w, b.Fp(), b) && mild in w.sevs(b.Fp()) && mild != Severity.Critical
    requires Idle(w, p) && p.link.critical == [] && p.link.normal == []
    requires p.tracker == T.Step(w.cfg, map[], Calls(w, b, mild).0).0
    ensures AllBenign(w, p, BothSent(w, b, mild))
    ensures var q := Run(w, p, BothSent(w, b, mild));
            && Idle(w, q) && q.tracker == map[] && q.sys == p.sys
            && q.link.critical == [X.AlertMsg(T.BuildResolved(T.TemplateOf(b), Severity.Critical, 2, 0))]
            && q.link.normal == [X.AlertMsg(b.(severity := mild).BuildFiring(0).(occurrences := 2))]
  {
    var c2, c3 := Calls(w, b, mild).1, Calls(w, b, mild).2;
    ThreeCalls(w, b, mild);
    Tracked(w, p, c2);
    InPieces(w, p, [Track(c2)], [Track(c3)]);
    Tracked(w, Run(w, p, [Track(c2)]), c3);
  }

  lemma {:induction false} ResolveOvertakes(w: World, p: Chain, b: Builder, mild: Severity)
    requires CanSend(w, b.Fp(), b) && mild in w.sevs(b.Fp()) && mild != Severity.Critical
    requires Idle(w, p) && p.link.critical == [] && p.link.normal == []
    requires p.tracker == T.Step(w.cfg, map[], Calls(w, b, mild).0).0
    ensures var q := Run(w, p, Overtaken(w, b, mild));
            && AllBenign(w, p, Overtaken(w, b, mild)) && Drained(q)
            && b.Fp() in q.sys.col.firing && b.Fp() !in q.tracker
  {
    var g := b.(severity := mild).BuildFiring(0).(occurrences := 2);
    assert g.fingerprint == b.Fp();
    BothQueued(w, p, b, mild);
    var xs := BothSent(w, b, mild);
    InPieces(w, p, xs, FETCH + SERVE);
    Trip(w, Run(w, p, xs));
    xs := xs + (FETCH + SERVE);
    InPieces(w, p, xs, FETCH + SERVE);
    Trip(w, Run(w, p, xs));
  }

  /** Tracker and collector agree on a fingerprint at the end of every lossless drained run. */
  ghost predicate AlwaysAgree(w: World, k: string) {
    forall after: U64, xs: seq<Step> | AllBenign(w, Start(after), xs) && Drained(Run(w, Start(after), xs)) ::
      k in Run(w, Start(after), xs).sys.col.firing <==> k in Run(w, Start(after), xs).tracker
  }

  /** Every lossless drained run ends in agreement on a fingerprint exactly when all severities it may be
      observed with go by one lane. The lanes have room for a message at all, as their constructor demands. */
  lemma OneLaneExactly(w: World, k: string, b: Builder)
    requires CanSend(w, k, b)
    ensures AlwaysAgree(w, k) <==> OneLane(w, k)
  {
    if OneLane(w, k) {
      forall after: U64, xs: seq<Step> | AllBenign(w, Start(after), xs) && Drained(Run(w, Start(after), xs))
        ensures k in Run(w, Start(after), xs).sys.col.firing <==> k in Run(w, Start(after), xs).tracker
      {
        TrackerAgreement(w, after, xs);
      }
    } else {
      var mild :| mild in w.sevs(k) && LaneFor(mild) != KeyLane(w, k);
      MixedLanesDisagree(w, 0, b, mild);
      assert Disagrees(w, 0, Arriving(w, b, mild) + Overtaken(w, b, mild), k);
    }
  }
}
