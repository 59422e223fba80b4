/** The three windows in which a browser can lose agreement with the collector: when exactly each of them
    does harm, and a run from the start that falls into each. */
module Races {
  import opened Basics
  import opened Shared
  import opened Collector
  import opened Gui
  import opened Replica

  // ---- Every run, calm or not ----

  /** What a message says of a fingerprint, if anything. */
  function Word(e: Envelope, fp: string): Option<bool> {
    match e
    case SnapshotEnv(alerts) => Some(LastOf(alerts, fp).Some?)
    case AlertEnv(a) => if a.fingerprint == fp then Some(a.state == Firing) else None
  }

  /** What an action sends to the browser. */
  ghost function SentBy(s: Sys, act: Act): Option<Envelope> {
    match act
    case Col(x) => if x.Send? && Enabled(s.col, x) && Subscribed(s) then Some(AlertEnv(s.col.tasks[x.t].a)) else None
    case ClearSend(t) => if t in s.clears && Subscribed(s) then Some(SnapshotEnv(s.clears[t])) else None
    case Connect(alerts) => if s.conn.Closed? && Lists(alerts, s.col.firing) then Some(SnapshotEnv(alerts)) else None
    case _ => None
  }

  predicate Subscribed(s: Sys) { s.conn.Open? && s.conn.subscribed }

  /** The last word on fp sent to the browser in a run, given what it was before. */
  ghost function LastTold(s: Sys, acts: seq<Act>, fp: string, before: Option<bool>): Option<bool>
    decreases |acts|
  {
    if acts == [] then before else LastTold(Next(s, acts[0]), acts[1..], fp, ToldAfter(s, acts[0], fp, before))
  }

  ghost function ToldAfter(s: Sys, act: Act, fp: string, before: Option<bool>): Option<bool> {
    var e := SentBy(s, act);
    if e.Some? && Word(e.value, fp).Some? then Word(e.value, fp) else before
  }

  /** What the last change of fp in the collector made of it. */
  function LastChange(changes: seq<Alert>, fp: string): bool {
    if changes == [] then false
    else if changes[|changes| - 1].fingerprint == fp then changes[|changes| - 1].state == Firing
    else LastChange(changes[..|changes| - 1], fp)
  }

  ghost predicate Kept(firing: Firings, changes: seq<Alert>, fp: string) {
    KeysFit(firing) && (fp in firing <==> LastChange(changes, fp))
  }

  lemma LastChangeSnoc(changes: seq<Alert>, a: Alert, fp: string)
    ensures LastChange(changes + [a], fp) == if a.fingerprint == fp then a.state == Firing else LastChange(changes, fp)
  {
    assert (changes + [a])[..|changes|] == changes;
  }

  lemma {:induction false} ApplyKept(s: State, t: nat, a: Alert, fp: string)
    requires Kept(s.firing, s.changes, fp)
    ensures Kept(Apply(s, t, a).firing, Apply(s, t, a).changes, fp)
  {
    LastChangeSnoc(s.changes, a, fp);
  }

  lemma {:induction false} RemoveKept(firing: Firings, changes: seq<Alert>, a: Alert, fp: string)
    requires Kept(firing, changes, fp) && a.state == Resolved
    ensures Kept(firing - {a.fingerprint}, changes + [a], fp)
  {
    LastChangeSnoc(changes, a, fp);
  }

  lemma {:induction false} WatchKept(s: State, id: string, name: string, seen: int, now: int, fp: string)
    requires Kept(s.firing, s.changes, fp) && id in s.hosts
    ensures var u := WatchHost(s, id, name, seen, now); Kept(u.firing, u.changes, fp)
  {
    var online := Online(now, seen, s.after);
    if !(id in s.lastOnline && s.lastOnline[id] == online) {
      if !online {
        ApplyKept(Judged(s, id, online), WATCHER, OfflineAlert(name, id, now), fp);
      } else if OfflineFp(id) in s.firing {
        RemoveKept(s.firing, s.changes, s.firing[OfflineFp(id)].(state := Resolved, ts := now), fp);
      }
    }
  }

  lemma {:induction false} StepKept(s: State, x: Action, fp: string)
    requires Kept(s.firing, s.changes, fp)
    ensures Kept(Do(s, x).firing, Do(s, x).changes, fp)
  {
    if Enabled(s, x) {
      match x
      case IngestApply(t) => ApplyKept(s, t, s.tasks[t].a, fp);
      case SyslogApply(t, a) => ApplyKept(Introduce(s, a.hostId), t, a, fp);
      case ResolveBegin(_, k, now) => RemoveKept(s.firing, s.changes, ClosedBy(s.firing[k], now), fp);
      case Watch =>
        var w := s.tick.left[0];
        WatchKept(Popped(s), w.0, w.1.name, w.1.lastSeen, s.tick.now, fp);
      case _ =>
    }
  }

  /** What is coming to the browser is what it was last told. */
  ghost predicate Hears(s: Sys, fp: string, told: Option<bool>) {
    s.conn.Open? ==> told == Some(Coming(s, fp))
  }

  lemma {:induction false} SentHeard(s: Sys, e: Envelope, fp: string)
    requires Subscribed(s)
    ensures var u := s.(conn := Emit(s.conn, e));
            Coming(u, fp) == if Word(e, fp).Some? then Word(e, fp).value else Coming(s, fp)
  {
    PresentSnoc(fp in s.board, s.conn.feed, e, fp);
  }

  lemma {:induction false} StepHeard(s: Sys, act: Act, fp: string, told: Option<bool>)
    requires Hears(s, fp, told)
    ensures Hears(Next(s, act), fp, ToldAfter(s, act, fp, told))
  {
    match act
    case Col(x) =>
      if x.Send? && Enabled(s.col, x) && Subscribed(s) { SentHeard(s, AlertEnv(s.col.tasks[x.t].a), fp); }
    case ClearSend(t) =>
      if t in s.clears && Subscribed(s) { SentHeard(s, SnapshotEnv(s.clears[t]), fp); }
    case Connect(alerts) =>
      if s.conn.Closed? && Lists(alerts, s.col.firing) { PresentOne(fp in s.board, SnapshotEnv(alerts), fp); }
    case Receive =>
      if s.conn.Open? && s.conn.feed != [] { PresenceHandled(s.board, s.conn.feed[0], fp); }
    case _ =>
  }

  lemma {:induction false} ColAfter(s: Sys, act: Act)
    ensures Next(s, act).col == if act.Col? then Do(s.col, act.x) else s.col
  {
  }

  lemma {:induction false} HeardThroughout(s: Sys, acts: seq<Act>, fp: string, told: Option<bool>)
    requires Hears(s, fp, told) && Kept(s.col.firing, s.col.changes, fp)
    ensures Hears(Play(s, acts), fp, LastTold(s, acts, fp, told))
    ensures Kept(Play(s, acts).col.firing, Play(s, acts).col.changes, fp)
    decreases |acts|
  {
    if acts != [] {
      StepHeard(s, acts[0], fp, told);
      ColAfter(s, acts[0]);
      if acts[0].Col? { StepKept(s.col, acts[0].x, fp); }
      HeardThroughout(Next(s, acts[0]), acts[1..], fp, ToldAfter(s, acts[0], fp, told));
    }
  }

  /** In every run, whichever windows it falls into: a browser that has received everything shows a
      fingerprint iff the last word it was sent on it says so, the collector has it firing iff its last
      change says so, and hence they agree exactly when the last word sent is true to the last change. */
  lemma RunExactly(after: U64, acts: seq<Act>, fp: string)
    requires var s := Play(Start(after), acts); s.conn.Open? && s.conn.feed == []
    ensures var s := Play(Start(after), acts);
            var told, change := LastTold(Start(after), acts, fp, None), LastChange(s.col.changes, fp);
            && told.Some? && (fp in s.board <==> told.value) && (fp in s.col.firing <==> change)
            && ((fp in s.board <==> fp in s.col.firing) <==> told.value == change)
  {
    HeardThroughout(Start(after), acts, fp, None);
  }

  // ---- Snapshots of the clear-history action ----

  /** Broadcasting a snapshot keeps agreement on a fingerprint exactly when the snapshot is not stale for it. */
  lemma ClearExactly(s: Sys, t: nat, fp: string)
    requires Agree(s, fp) && Subscribed(s) && Settled(s.col.tasks, fp) && t in s.clears
    ensures Agree(Next(s, ClearSend(t)), fp) <==> (LastOf(s.clears[t], fp).Some? <==> fp in s.col.firing)
  {
    EmitComing(s, SnapshotEnv(s.clears[t]), fp);
  }

  // ---- Broadcasts that overtake each other ----

  /** Tasks finish what they have begun, and the browser receives. */
  predicate Finishing(act: Act) { act.Receive? || (act.Col? && (act.x.BumpEnd? || act.x.ResolveEnd? || act.x.Send?)) }

  predicate AllFinishing(acts: seq<Act>) { forall act <- acts :: Finishing(act) }

  ghost predicate Quiet(s: Sys, fp: string) { Subscribed(s) && s.conn.feed == [] && Settled(s.col.tasks, fp) }

  lemma {:induction false} FinishingCalm(s: Sys, act: Act, fp: string)
    requires Finishing(act)
    ensures Calm(s, act, fp) && Next(s, act).col.firing == s.col.firing
  {
    ColAfter(s, act);
    if act.Col? { FiringLeftAlone(s.col, act.x); }
  }

  lemma {:induction false} FinishingAgrees(s: Sys, acts: seq<Act>, fp: string)
    requires Agree(s, fp) && AllFinishing(acts)
    ensures Agree(Play(s, acts), fp)
    decreases |acts|
  {
    if acts != [] {
      FinishingCalm(s, acts[0], fp);
      Replica.StepAgrees(s, acts[0], fp);
      FinishingAgrees(Next(s, acts[0]), acts[1..], fp);
    }
  }

  lemma {:induction false} PlayConcat(s: Sys, a: seq<Act>, b: seq<Act>)
    ensures Play(s, a + b) == Play(Play(s, a), b)
    decreases |a|
  {
    if a == [] {
      assert a + b == b;
    } else {
      assert (a + b)[1..] == a[1..] + b;
      PlayConcat(Next(s, a[0]), a[1..], b);
    }
  }

  lemma PlayOne(s: Sys, a: Act)
    ensures Play(s, [a]) == Next(s, a)
  {
    assert [a][1..] == [];
  }

  lemma PlayTwo(s: Sys, a: Act, b: Act)
    ensures Play(s, [a, b]) == Next(Next(s, a), b)
  {
    assert [a, b] == [a] + [b];
    PlayConcat(s, [a], [b]);
    PlayOne(s, a);
    PlayOne(Next(s, a), b);
  }

  /** What finishing task t leaves, as far as browsers are concerned. */
  ghost predicate Finished(s: Sys, u: Sys, t: nat)
    requires t in s.col.tasks
  {
    && u.col.tasks == s.col.tasks - {t} && u.col.firing == s.col.firing && u.board == s.board
    && Subscribed(s) && u.conn == s.conn.(feed := s.conn.feed + [AlertEnv(s.col.tasks[t].a)])
  }

  lemma {:induction false} FinishSend(s: Sys, t: nat)
    requires Subscribed(s) && t in s.col.tasks && s.col.tasks[t].Broadcasting?
    ensures Finished(s, Next(s, Col(Send(t))), t)
  {
  }

  lemma {:induction false} FinishOne(s: Sys, t: nat) returns (acts: seq<Act>)
    requires Subscribed(s) && t in s.col.tasks && !s.col.tasks[t].Touched?
    ensures AllFinishing(acts) && Finished(s, Play(s, acts), t)
  {
    if s.col.tasks[t].Broadcasting? {
      acts := [Col(Send(t))];
      PlayOne(s, acts[0]);
      FinishSend(s, t);
    } else {
      var first := if s.col.tasks[t].Bumping? then BumpEnd(t) else ResolveEnd(t);
      acts := [Col(first), Col(Send(t))];
      PlayTwo(s, acts[0], acts[1]);
      FinishCount(s, t, first);
      FinishSend(Next(s, Col(first)), t);
    }
  }

  lemma {:induction false} FinishCount(s: Sys, t: nat, x: Action)
    requires t in s.col.tasks
    requires (x == BumpEnd(t) && s.col.tasks[t].Bumping?) || (x == ResolveEnd(t) && s.col.tasks[t].Decrementing?)
    ensures var u := Next(s, Col(x));
            && u.col.tasks == s.col.tasks[t := Broadcasting(s.col.tasks[t].a)] && u.col.tasks - {t} == s.col.tasks - {t}
            && u.col.firing == s.col.firing && u.conn == s.conn && u.board == s.board
  {
    var u := Do(s.col, x);
    assert u.tasks == s.col.tasks[t := Broadcasting(s.col.tasks[t].a)];
  }

  ghost function Others(tasks: Tasks, t: nat, fp: string): set<nat> {
    set u | u in tasks && u != t && Pending(tasks, u, fp)
  }

  lemma {:induction false} FinishOthers(s: Sys, t: nat, fp: string) returns (acts: seq<Act>)
    requires Subscribed(s) && Pending(s.col.tasks, t, fp)
    ensures AllFinishing(acts)
    ensures var u := Play(s, acts);
            && Subscribed(u) && u.col.firing == s.col.firing && t in u.col.tasks && u.col.tasks[t] == s.col.tasks[t]
            && Others(u.col.tasks, t, fp) == {}
    decreases |Others(s.col.tasks, t, fp)|
  {
    acts := [];
    if v :| v in Others(s.col.tasks, t, fp) {
      var one := FinishOne(s, v);
      var u := Play(s, one);
      assert Others(u.col.tasks, t, fp) == Others(s.col.tasks, t, fp) - {v};
      var rest := FinishOthers(u, t, fp);
      acts := one + rest;
      PlayConcat(s, one, rest);
    }
  }

  lemma NoOthers(tasks: Tasks, t: nat, fp: string)
    requires t !in tasks && Others(tasks, t, fp) == {}
    ensures Settled(tasks, fp)
  {
    forall u | u in tasks && Pending(tasks, u, fp) ensures u in Others(tasks, t, fp) {}
  }

  /** Task t tells last. */
  lemma {:induction false} FinishLast(s: Sys, t: nat, fp: string) returns (acts: seq<Act>)
    requires Subscribed(s) && Pending(s.col.tasks, t, fp)
    ensures AllFinishing(acts)
    ensures var u := Play(s, acts);
            && Subscribed(u) && u.col.firing == s.col.firing && Settled(u.col.tasks, fp)
            && Coming(u, fp) == (s.col.tasks[t].a.state == Firing)
  {
    var rest := FinishOthers(s, t, fp);
    var u := Play(s, rest);
    var last := FinishOne(u, t);
    acts := rest + last;
    PlayConcat(s, rest, last);
    var v := Play(u, last);
    PresentSnoc(fp in u.board, u.conn.feed, AlertEnv(u.col.tasks[t].a), fp);
    assert Others(v.col.tasks, t, fp) <= Others(u.col.tasks, t, fp);
    assert Settled(v.col.tasks, fp) by { NoOthers(v.col.tasks, t, fp); }
  }

  lemma {:induction false} ReceiveAll(s: Sys, fp: string) returns (acts: seq<Act>)
    requires Subscribed(s)
    ensures AllFinishing(acts)
    ensures var u := Play(s, acts);
            Subscribed(u) && u.conn.feed == [] && u.col == s.col && (fp in u.board <==> Coming(s, fp))
    decreases |s.conn.feed|
  {
    acts := [];
    if s.conn.feed != [] {
      PresenceHandled(s.board, s.conn.feed[0], fp);
      var rest := ReceiveAll(Next(s, Receive), fp);
      acts := [Receive] + rest;
      PlayOne(s, Receive);
      PlayConcat(s, [Receive], rest);
    }
  }

  /** A step that takes fp in or out touches no task that has a broadcast about it pending. */
  lemma {:induction false} FlipKeeps(c: State, x: Action, t: nat, fp: string)
    requires KeysFit(c.firing) && Enabled(c, x) && Pending(c.tasks, t, fp)
    requires !(fp in Do(c, x).firing <==> fp in c.firing)
    ensures t in Do(c, x).tasks && Do(c, x).tasks[t] == c.tasks[t]
  {
    match x
    case Watch =>
    case _ =>
  }

  lemma {:induction false} OutOfTurnBreaks(s: Sys, x: Action, fp: string) returns (acts: seq<Act>)
    requires Agree(s, fp) && Subscribed(s) && Enabled(s.col, x) && !x.Send? && !InTurn(s.col, x, fp)
    ensures var u := Play(Next(s, Col(x)), acts);
            AllFinishing(acts) && Quiet(u, fp) && !(fp in u.board <==> fp in u.col.firing)
  {
    var t :| Pending(s.col.tasks, t, fp);
    FlipKeeps(s.col, x, t, fp);
    var v := Next(s, Col(x));
    assert v.col == Do(s.col, x) && v.conn == s.conn;
    var finish := FinishLast(v, t, fp);
    var w := Play(v, finish);
    var receive := ReceiveAll(w, fp);
    acts := finish + receive;
    PlayConcat(v, finish, receive);
  }

  /** While browser and collector agree, a step of any task keeps them in agreement - at every quiet point
      after it, however the tasks under way are scheduled to finish - if and only if it does not take the
      fingerprint in or out while a broadcast about it is pending. */
  lemma {:induction false} RaceExactly(s: Sys, x: Action, fp: string)
    requires Agree(s, fp) && Subscribed(s) && Enabled(s.col, x)
    ensures (forall acts | AllFinishing(acts) && Quiet(Play(Next(s, Col(x)), acts), fp) ::
                fp in Play(Next(s, Col(x)), acts).board <==> fp in Play(Next(s, Col(x)), acts).col.firing)
       <==> InTurn(s.col, x, fp)
  {
    if InTurn(s.col, x, fp) {
      Replica.StepAgrees(s, Col(x), fp);
      forall acts | AllFinishing(acts) && Quiet(Play(Next(s, Col(x)), acts), fp)
        ensures fp in Play(Next(s, Col(x)), acts).board <==> fp in Play(Next(s, Col(x)), acts).col.firing
      {
        FinishingAgrees(Next(s, Col(x)), acts, fp);
      }
    } else {
      var acts := OutOfTurnBreaks(s, x, fp);
    }
  }

  // ---- A run from the start into each window ----

  const JOIN := [Connect([])] + [Subscribe, Receive]

  function Steps(t: nat, a: Alert): seq<Act> {
    [Col(IngestTouch(t, a)), Col(IngestApply(t))] + [Col(BumpEnd(t)), Col(Send(t))]
  }

  /** Nothing fires, no task is under way. */
  predicate Blank(s: Sys) { s.col.firing == map[] && s.col.hosts == map[] && s.col.tasks == map[] && s.board == map[] }

  lemma Joins(after: U64)
    ensures var s := Play(Start(after), JOIN); Blank(s) && s.conn == Open(true, [], []) && s.clears == map[]
  {
    var s1 := Next(Start(after), Connect([]));
    assert s1.conn == Open(false, [SnapshotEnv([])], []) by { assert Lists([], map[]); }
    PlayOne(Start(after), Connect([]));
    PlayTwo(s1, Subscribe, Receive);
    PlayConcat(Start(after), [Connect([])], [Subscribe, Receive]);
    var s3 := Next(Next(s1, Subscribe), Receive);
    assert s3.board == SetAll(map[], []) && s3.conn == Open(true, [], []);
  }

  /** The first alert of all is applied and counted ... */
  lemma {:induction false} FirstApplied(s: Sys, t: nat, a: Alert)
    requires Blank(s) && t != WATCHER && a.state == Firing
    ensures var u := Next(Next(Next(s, Col(IngestTouch(t, a))), Col(IngestApply(t))), Col(BumpEnd(t)));
            && u.col.firing == map[a.fingerprint := a] && u.col.tasks == map[t := Broadcasting(a)]
            && u.conn == s.conn && u.board == map[] && u.clears == s.clears
  {
    var c1 := Do(s.col, IngestTouch(t, a));
    assert c1.tasks == map[t := Touched(a)] && c1.firing == map[];
    var c2 := Do(c1, IngestApply(t));
    assert c2.tasks == map[t := Bumping(a, 1)] && c2.firing == map[a.fingerprint := a];
    var c3 := Do(c2, BumpEnd(t));
    assert c3.tasks == map[t := Broadcasting(a)] && c3.firing == c2.firing;
  }

  /** ... and broadcast. */
  lemma {:induction false} FirstAlert(s: Sys, t: nat, a: Alert)
    requires Blank(s) && t != WATCHER && a.state == Firing
    ensures var u := Play(s, Steps(t, a));
            && u.col.firing == map[a.fingerprint := a] && u.col.tasks == map[]
            && u.conn == Emit(s.conn, AlertEnv(a)) && u.board == map[] && u.clears == s.clears
  {
    FirstApplied(s, t, a);
    var v := Next(Next(s, Col(IngestTouch(t, a))), Col(IngestApply(t)));
    PlayTwo(s, Col(IngestTouch(t, a)), Col(IngestApply(t)));
    PlayTwo(v, Col(BumpEnd(t)), Col(Send(t)));
    PlayConcat(s, [Col(IngestTouch(t, a)), Col(IngestApply(t))], [Col(BumpEnd(t)), Col(Send(t))]);
    var u := Next(v, Col(BumpEnd(t)));
    assert u.col.tasks - {t} == map[];
  }

  ghost predicate LosesAlert(s: Sys, fp: string) { Quiet(s, fp) && fp in s.col.firing && fp !in s.board }

  /** An alert that is broadcast between the snapshot and the subscription never reaches the browser. */
  lemma GapLoses(after: U64, a: Alert)
    requires a.state == Firing
    ensures LosesAlert(Play(Start(after), [Connect([])] + Steps(2, a) + [Subscribe, Receive]), a.fingerprint)
  {
    var s1 := Next(Start(after), Connect([]));
    assert s1.conn == Open(false, [SnapshotEnv([])], []) by { assert Lists([], map[]); }
    PlayOne(Start(after), Connect([]));
    FirstAlert(s1, 2, a);
    PlayConcat(Start(after), [Connect([])], Steps(2, a));
    SubscribesLate(Play(s1, Steps(2, a)), a);
    PlayConcat(Start(after), [Connect([])] + Steps(2, a), [Subscribe, Receive]);
  }

  lemma {:induction false} SubscribesLate(s: Sys, a: Alert)
    requires s.col.firing == map[a.fingerprint := a] && s.col.tasks == map[]
    requires s.conn == Open(false, [SnapshotEnv([])], [AlertEnv(a)])
    ensures LosesAlert(Play(s, [Subscribe, Receive]), a.fingerprint)
  {
    PlayTwo(s, Subscribe, Receive);
    assert Next(s, Subscribe).conn == Open(true, [SnapshotEnv([])], []);
    assert Next(Next(s, Subscribe), Receive).board == SetAll(map[], []);
  }

  /** A snapshot that clear-history took before an alert and broadcasts after it wipes the alert off the board. */
  lemma ClearLoses(after: U64, a: Alert)
    requires a.state == Firing
    ensures var acts := JOIN + [ClearTake(0, [])] + Steps(2, a) + [ClearSend(0)] + [Receive, Receive];
            LosesAlert(Play(Start(after), acts), a.fingerprint)
  {
    Joins(after);
    var s1 := Play(Start(after), JOIN);
    var s2 := Next(s1, ClearTake(0, []));
    assert s2.clears == map[0 := []] by { assert Lists([], map[]); }
    PlayOne(s1, ClearTake(0, []));
    PlayConcat(Start(after), JOIN, [ClearTake(0, [])]);
    FirstAlert(s2, 2, a);
    var s3 := Play(s2, Steps(2, a));
    PlayConcat(Start(after), JOIN + [ClearTake(0, [])], Steps(2, a));
    ClearWipes(s3, a);
    PlayOne(s3, ClearSend(0));
    PlayConcat(Start(after), JOIN + [ClearTake(0, [])] + Steps(2, a), [ClearSend(0)]);
    PlayConcat(Start(after), JOIN + [ClearTake(0, [])] + Steps(2, a) + [ClearSend(0)], [Receive, Receive]);
  }

  lemma {:induction false} ClearWipes(s: Sys, a: Alert)
    requires s.col.firing == map[a.fingerprint := a] && s.col.tasks == map[] && s.clears == map[0 := []]
    requires s.conn == Open(true, [AlertEnv(a)], [])
    ensures LosesAlert(Play(Next(s, ClearSend(0)), [Receive, Receive]), a.fingerprint)
  {
    var s1 := Next(s, ClearSend(0));
    assert s1.conn.feed == [AlertEnv(a), SnapshotEnv([])];
    PlayTwo(s1, Receive, Receive);
    var s2 := Next(s1, Receive);
    assert s2.conn.feed == [SnapshotEnv([])];
    assert Next(s2, Receive).board == SetAll(map[], []);
  }

  /** An operator resolves an alert that has not been broadcast yet: the run can go on so that the browser
      hears of the resolve first, and keeps an alert that is gone. */
  lemma RaceLoses(after: U64, a: Alert, now: int) returns (acts: seq<Act>)
    requires a.state == Firing
    ensures var s := Play(Start(after), acts);
            Quiet(s, a.fingerprint) && a.fingerprint in s.board && s.col.firing == map[]
  {
    var fp := a.fingerprint;
    Joins(after);
    var s1 := Play(Start(after), JOIN);
    FirstApplied(s1, 2, a);
    var one, two := [Col(IngestTouch(2, a)), Col(IngestApply(2))], [Col(BumpEnd(2))];
    var s2 := Play(s1, one);
    PlayTwo(s1, one[0], one[1]);
    var s3 := Play(s2, two);
    PlayOne(s2, two[0]);
    var x := ResolveBegin(3, fp, now);
    RaceSets(s3, a, now);
    var rest := OutOfTurnBreaks(s3, x, fp);
    acts := JOIN + one + two + [Col(x)] + rest;
    PlayConcat(Start(after), JOIN, one);
    PlayConcat(Start(after), JOIN + one, two);
    PlayConcat(Start(after), JOIN + one + two, [Col(x)]);
    PlayOne(s3, Col(x));
    PlayConcat(Start(after), JOIN + one + two + [Col(x)], rest);
    FinishingFiring(Next(s3, Col(x)), rest);
  }

  lemma {:induction false} FinishingFiring(s: Sys, acts: seq<Act>)
    requires AllFinishing(acts)
    ensures Play(s, acts).col.firing == s.col.firing
    decreases |acts|
  {
    if acts != [] {
      FinishingCalm(s, acts[0], "");
      FinishingFiring(Next(s, acts[0]), acts[1..]);
    }
  }

  lemma {:induction false} RaceSets(s: Sys, a: Alert, now: int)
    requires s.col.firing == map[a.fingerprint := a] && s.col.tasks == map[2 := Broadcasting(a)] && a.state == Firing
    requires s.conn == Open(true, [], []) && s.board == map[]
    ensures var x := ResolveBegin(3, a.fingerprint, now);
            && Agree(s, a.fingerprint) && Enabled(s.col, x) && !InTurn(s.col, x, a.fingerprint)
            && Next(s, Col(x)).col.firing == map[]
  {
    assert Pending(s.col.tasks, 2, a.fingerprint);
    var d := BeginResolve(s.col, 3, a.fingerprint, now);
    assert Do(s.col, ResolveBegin(3, a.fingerprint, now)) == d && d.firing == map[];
  }
}
