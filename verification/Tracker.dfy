/** The dedup machine of one agent module: agent/src/state.rs. */
module Tracker {
  import opened Basics
  import opened Shared

  datatype Template = Template(host: string, hostId: string, category: string, metric: string, device: Option<string>)
  {
    function Fp(): string { Fingerprint(hostId, category, device, metric) }
  }

  datatype Entry = Entry(
    lastEmitted: int, lastSeen: int, occurrences: nat, severity: Severity, template: Template, okSince: Option<int>)

  type Entries = map<string, Entry>

  datatype Config = Config(reNotify: nat, recovery: nat)

  /** One call on the tracker. `now` is the Instant read before the lock is taken, so it may be
      older than readings already stored; `wall` is the wall clock stamped on an alert. */
  datatype Call =
    | Observe(b: Builder, now: int, wall: int)
    | ObserveOk(fp: string, now: int, wall: int)
    | ForceResolve(fp: string, now: int, wall: int)
  {
    function Key(): string {
      match this
      case Observe(b, _, _) => b.Fp()
      case ObserveOk(fp, _, _) => fp
      case ForceResolve(fp, _, _) => fp
    }
  }

  function TemplateOf(b: Builder): Template {
    Template(b.host, b.hostId, b.category, b.metric, b.device)
  }

  function BuildResolved(t: Template, severity: Severity, occ: nat, wall: int): Alert {
    Alert(t.host, t.hostId, t.category, severity, Resolved, t.device, t.metric, t.Fp(), wall, wall, wall, occ)
  }

  /** What a call makes of the entry of its fingerprint: the new entry, and whether to raise or close the alert. */
  datatype Outcome = Outcome(entry: Option<Entry>, verdict: Verdict)

  datatype Verdict = Silent | Raise(occ: nat) | Close(entry: Entry)

  function Touch(cfg: Config, prior: Option<Entry>, c: Call): Outcome {
    match c
    case Observe(b, now, _) =>
      if prior.Some? then
        var e := prior.value.(lastSeen := now, occurrences := prior.value.occurrences + 1, okSince := None);
        if Since(now, e.lastEmitted) >= cfg.reNotify then
          Outcome(Some(e.(lastEmitted := now)), Raise(e.occurrences))
        else
          Outcome(Some(e), Silent)
      else
        Outcome(Some(Entry(now, now, 1, b.severity, TemplateOf(b), None)), Raise(1))
    case ObserveOk(_, now, _) =>
      if prior.None? then Outcome(None, Silent)
      else if prior.value.okSince.None? then Outcome(Some(prior.value.(okSince := Some(now))), Silent)
      else if Since(now, prior.value.okSince.value) >= cfg.recovery then Outcome(None, Close(prior.value))
      else Outcome(prior, Silent)
    case ForceResolve(_, _, _) =>
      if prior.None? then Outcome(None, Silent) else Outcome(None, Close(prior.value))
  }

  /** The alert that a verdict hands back to the caller. */
  function AlertOf(c: Call, v: Verdict): Option<Alert>
    requires v.Raise? ==> c.Observe?
  {
    match v
    case Silent => None
    case Raise(occ) => Some(c.b.BuildFiring(c.wall).(occurrences := occ))
    case Close(e) => Some(BuildResolved(e.template, e.severity, e.occurrences, c.wall))
  }

  function Lookup(m: Entries, fp: string): Option<Entry> {
    if fp in m then Some(m[fp]) else None
  }

  /** What one call does to the map, and the alert it hands back. */
  function Step(cfg: Config, m: Entries, c: Call): (Entries, Option<Alert>) {
    var fp := c.Key();
    var o := Touch(cfg, Lookup(m, fp), c);
    (if o.entry.Some? then m[fp := o.entry.value] else m - {fp}, AlertOf(c, o.verdict))
  }

  /** A call that leaves the entry as it was, or there is none, leaves the map as it was. */
  lemma EntryKept(m: Entries, fp: string)
    ensures fp in m ==> m[fp := m[fp]] == m
    ensures fp !in m ==> m - {fp} == m
  {
  }

  class AlertTracker {
    var inner: Entries
    const cfg: Config
    ghost var calls: seq<Call>

    ghost predicate Valid()
      reads this
    {
      inner == After(cfg, calls)
    }

    constructor (reNotify: nat, recovery: nat)
      ensures Valid() && calls == [] && cfg == Config(reNotify, recovery)
    {
      inner := map[];
      cfg := Config(reNotify, recovery);
      calls := [];
    }

    method Observe(b: Builder, now: int, wall: int) returns (d: Option<Alert>)
      requires Valid()
      modifies this
      ensures Valid() && calls == old(calls) + [Call.Observe(b, now, wall)]
      ensures d == Last(History(cfg, calls)).out
    {
      ghost var c := Call.Observe(b, now, wall);
      EntryKept(inner, c.Key());
      HistorySnoc(cfg, calls, c);
      var fp := b.Fp();
      if fp in inner {
        var e := inner[fp];
        e := e.(lastSeen := now, occurrences := e.occurrences + 1, okSince := None);
        if Since(now, e.lastEmitted) >= cfg.reNotify {
          d := Some(b.BuildFiring(wall).(occurrences := e.occurrences));
          e := e.(lastEmitted := now);
        } else {
          d := None;
        }
        inner := inner[fp := e];
      } else {
        var alert := b.BuildFiring(wall);
        inner := inner[fp := Entry(now, now, 1, alert.severity, TemplateOf(b), None)];
        d := Some(alert);
      }
      assert (inner, d) == Step(cfg, old(inner), c);
      calls := calls + [c];
    }

    method ObserveOk(fp: string, now: int, wall: int) returns (r: Option<Alert>)
      requires Valid()
      modifies this
      ensures Valid() && calls == old(calls) + [Call.ObserveOk(fp, now, wall)]
      ensures r == Last(History(cfg, calls)).out
    {
      ghost var c := Call.ObserveOk(fp, now, wall);
      EntryKept(inner, c.Key());
      HistorySnoc(cfg, calls, c);
      r := None;
      if fp in inner {
        var e := inner[fp];
        if e.okSince.None? {
          inner := inner[fp := e.(okSince := Some(now))];
        } else if Since(now, e.okSince.value) >= cfg.recovery {
          inner := inner - {fp};
          r := Some(BuildResolved(e.template, e.severity, e.occurrences, wall));
        }
      }
      assert (inner, r) == Step(cfg, old(inner), c);
      calls := calls + [c];
    }

    method ForceResolve(fp: string, ghost now: int, wall: int) returns (r: Option<Alert>)
      requires Valid()
      modifies this
      ensures Valid() && calls == old(calls) + [Call.ForceResolve(fp, now, wall)]
      ensures r == Last(History(cfg, calls)).out
    {
      ghost var c := Call.ForceResolve(fp, now, wall);
      EntryKept(inner, c.Key());
      HistorySnoc(cfg, calls, c);
      r := None;
      if fp in inner {
        var e := inner[fp];
        inner := inner - {fp};
        r := Some(BuildResolved(e.template, e.severity, e.occurrences, wall));
      }
      assert (inner, r) == Step(cfg, old(inner), c);
      calls := calls + [c];
    }
  }

  /** A call together with the alert it returned. */
  datatype Event = Event(call: Call, out: Option<Alert>)

  function After(cfg: Config, calls: seq<Call>): Entries {
    if calls == [] then map[] else Step(cfg, After(cfg, calls[..|calls| - 1]), Last(calls)).0
  }

  /** What an observer of the calls and their results sees of a run. */
  function History(cfg: Config, calls: seq<Call>): (h: seq<Event>)
    ensures |h| == |calls|
  {
    if calls == [] then []
    else
      var before := calls[..|calls| - 1];
      History(cfg, before) + [Event(Last(calls), Step(cfg, After(cfg, before), Last(calls)).1)]
  }

  lemma HistorySnoc(cfg: Config, calls: seq<Call>, c: Call)
    ensures After(cfg, calls + [c]) == Step(cfg, After(cfg, calls), c).0
    ensures History(cfg, calls + [c]) == History(cfg, calls) + [Event(c, Step(cfg, After(cfg, calls), c).1)]
  {
    assert (calls + [c])[..|calls|] == calls;
  }

  /** The alerts handed back from the n-th call on. */
  function OutsFrom(h: seq<Event>, n: nat): seq<Alert> {
    if |h| <= n then []
    else
      var before := OutsFrom(h[..|h| - 1], n);
      if Last(h).out.Some? then before + [Last(h).out.value] else before
  }

  lemma OneCallMore(a: seq<Call>, cs: seq<Call>, i: nat)
    requires i < |cs|
    ensures a + cs[..i] + [cs[i]] == a + cs[..i + 1]
    ensures i + 1 == |cs| ==> cs[..i + 1] == cs
  {
    assert cs[..i + 1] == cs[..i] + [cs[i]];
  }

  /** One call by a module, which sends on whatever alert it gets back. */
  method Ask(tracker: AlertTracker, c: Call, sent: seq<Alert>, ghost n: nat) returns (all: seq<Alert>)
    requires tracker.Valid() && n <= |tracker.calls|
    requires sent == OutsFrom(History(tracker.cfg, tracker.calls), n)
    modifies tracker
    ensures tracker.Valid() && tracker.calls == old(tracker.calls) + [c]
    ensures all == OutsFrom(History(tracker.cfg, tracker.calls), n)
  {
    HistorySnoc(tracker.cfg, tracker.calls, c);
    var out: Option<Alert>;
    match c {
      case Observe(b, now, wall) => out := tracker.Observe(b, now, wall);
      case ObserveOk(fp, now, wall) => out := tracker.ObserveOk(fp, now, wall);
      case ForceResolve(fp, now, wall) => out := tracker.ForceResolve(fp, now, wall);
    }
    all := if out.Some? then sent + [out.value] else sent;
  }

  method AskAll(tracker: AlertTracker, cs: seq<Call>, sent: seq<Alert>, ghost n: nat) returns (all: seq<Alert>)
    requires tracker.Valid() && n <= |tracker.calls|
    requires sent == OutsFrom(History(tracker.cfg, tracker.calls), n)
    modifies tracker
    ensures tracker.Valid() && tracker.calls == old(tracker.calls) + cs
    ensures all == OutsFrom(History(tracker.cfg, tracker.calls), n)
  {
    all := sent;
    for i := 0 to |cs|
      invariant tracker.Valid() && tracker.calls == old(tracker.calls) + cs[..i]
      invariant all == OutsFrom(History(tracker.cfg, tracker.calls), n)
    {
      OneCallMore(old(tracker.calls), cs, i);
      all := Ask(tracker, cs[i], all, n);
    }
  }

  lemma {:induction false} HistoryAt(cfg: Config, calls: seq<Call>, k: nat)
    requires k < |calls|
    ensures History(cfg, calls)[..k] == History(cfg, calls[..k])
    ensures History(cfg, calls)[k] == Event(calls[k], Step(cfg, After(cfg, calls[..k]), calls[k]).1)
  {
    var before := calls[..|calls| - 1];
    if k < |before| {
      HistoryAt(cfg, before, k);
      assert before[..k] == calls[..k];
      assert History(cfg, calls)[..k] == History(cfg, before)[..k];
    } else {
      assert History(cfg, calls)[..k] == History(cfg, before);
    }
  }

  // ---- Reading a history, without looking at the map ----

  /** What an event can be for a fingerprint. */
  datatype Kind = Seen | Calm | Raised | Closed

  predicate Is(e: Event, fp: string, k: Kind) {
    e.call.Key() == fp &&
    match k
    case Seen => e.call.Observe?
    case Calm => e.call.ObserveOk?
    case Raised => e.out.Some? && e.out.value.state == Firing
    case Closed => e.out.Some? && e.out.value.state == Resolved
  }

  /** Index of the last event of a kind, or -1. */
  function LastIs(h: seq<Event>, fp: string, k: Kind): (i: int)
    ensures -1 <= i < |h|
    ensures i >= 0 ==> Is(h[i], fp, k)
  {
    if h == [] then -1
    else if Is(Last(h), fp, k) then |h| - 1
    else LastIs(h[..|h| - 1], fp, k)
  }

  /** Index of the first event of a kind at or after `from`, or |h|. */
  function FirstIs(h: seq<Event>, fp: string, k: Kind, from: nat): (i: nat)
    requires from <= |h|
    ensures from <= i <= |h|
    ensures i < |h| ==> Is(h[i], fp, k)
    decreases |h| - from
  {
    if from == |h| || Is(h[from], fp, k) then from else FirstIs(h, fp, k, from + 1)
  }

  /** How many events of a kind there are at or after `from`. */
  function CountIs(h: seq<Event>, fp: string, k: Kind, from: nat): nat {
    if |h| <= from then 0
    else CountIs(h[..|h| - 1], fp, k, from) + if Is(Last(h), fp, k) then 1 else 0
  }

  /** The current episode of a fingerprint starts after the last alert that closed it. */
  function EpisodeStart(h: seq<Event>, fp: string): (i: nat)
    ensures i <= |h|
  {
    LastIs(h, fp, Closed) + 1
  }

  lemma {:induction false} NoneAfterLast(h: seq<Event>, fp: string, k: Kind)
    ensures forall j :: LastIs(h, fp, k) < j < |h| ==> !Is(h[j], fp, k)
  {
    if h != [] && !Is(Last(h), fp, k) {
      var g := h[..|h| - 1];
      NoneAfterLast(g, fp, k);
      assert forall j :: 0 <= j < |g| ==> g[j] == h[j];
    }
  }

  lemma {:induction false} FirstIsSnoc(h: seq<Event>, e: Event, fp: string, k: Kind, from: nat)
    requires from <= |h|
    ensures FirstIs(h + [e], fp, k, from)
         == if FirstIs(h, fp, k, from) < |h| then FirstIs(h, fp, k, from)
            else if Is(e, fp, k) then |h| else |h| + 1
    decreases |h| - from
  {
    if from < |h| && !Is(h[from], fp, k) {
      FirstIsSnoc(h, e, fp, k, from + 1);
      assert (h + [e])[from] == h[from];
    } else if from == |h| {
      assert (h + [e])[from] == e;
    } else {
      assert (h + [e])[from] == h[from];
    }
  }

  /** What searching a history tells about a fingerprint: where its episode starts, where it was last
      observed and last raised, and when; the builder of the first observe of the episode and their
      number; and the time of the first calm sample after the last observe. */
  datatype Digest = Digest(
    start: nat, seen: int, raised: int, seenAt: int, raisedAt: int,
    first: Option<Builder>, count: nat, calmAt: Option<int>)

  function Summary(h: seq<Event>, fp: string): Digest {
    var start, seen, raised := EpisodeStart(h, fp), LastIs(h, fp, Seen), LastIs(h, fp, Raised);
    var first, calm := FirstIs(h, fp, Seen, start), FirstIs(h, fp, Calm, seen + 1);
    Digest(start, seen, raised,
           if seen >= 0 then h[seen].call.now else 0,
           if raised >= 0 then h[raised].call.now else 0,
           if first < |h| then Some(h[first].call.b) else None,
           CountIs(h, fp, Seen, start),
           if calm < |h| then Some(h[calm].call.now) else None)
  }

  /** The entry of a fingerprint is what its history says: there is one iff the fingerprint was observed
      since it was last closed (and iff it was raised since then); severity and template are those of the
      first such observe, the count is their number, and ok_since is the first calm after the last one. */
  ghost predicate Refines(d: Digest, entry: Option<Entry>) {
    && (entry.Some? <==> d.first.Some?)
    && (entry.Some? <==> d.raised >= d.start) && (entry.Some? <==> d.seen >= d.start)
    && (entry.None? ==> d.count == 0)
    && (entry.Some? ==>
          && entry.value.occurrences == d.count
          && entry.value.severity == d.first.value.severity && entry.value.template == TemplateOf(d.first.value)
          && entry.value.lastSeen == d.seenAt && entry.value.lastEmitted == d.raisedAt
          && entry.value.okSince == d.calmAt)
  }

  /** How a summary moves when an event becomes the n-th of the history. */
  function Move(d: Digest, n: nat, e: Event, fp: string): Digest {
    var seen, raised, closed, calm := Is(e, fp, Seen), Is(e, fp, Raised), Is(e, fp, Closed), Is(e, fp, Calm);
    Digest(if closed then n + 1 else d.start,
           if seen then n else d.seen,
           if raised then n else d.raised,
           if seen then e.call.now else d.seenAt,
           if raised then e.call.now else d.raisedAt,
           if closed then None else if d.first.None? && seen then Some(e.call.b) else d.first,
           if closed then 0 else if seen then d.count + 1 else d.count,
           if seen then None else if d.calmAt.None? && calm then Some(e.call.now) else d.calmAt)
  }

  lemma {:induction false} FirstMoves(h: seq<Event>, e: Event, fp: string)
    ensures Summary(h + [e], fp).first == Move(Summary(h, fp), |h|, e, fp).first
    ensures Summary(h + [e], fp).count == Move(Summary(h, fp), |h|, e, fp).count
  {
    if !Is(e, fp, Closed) {
      FirstIsSnoc(h, e, fp, Seen, EpisodeStart(h, fp));
    }
  }

  lemma {:induction false} CalmMoves(h: seq<Event>, e: Event, fp: string)
    ensures Summary(h + [e], fp).calmAt == Move(Summary(h, fp), |h|, e, fp).calmAt
  {
    if !Is(e, fp, Seen) { FirstIsSnoc(h, e, fp, Calm, LastIs(h, fp, Seen) + 1); }
  }

  lemma {:induction false} SummaryMoves(h: seq<Event>, e: Event, fp: string)
    ensures Summary(h + [e], fp) == Move(Summary(h, fp), |h|, e, fp)
  {
    FirstMoves(h, e, fp);
    CalmMoves(h, e, fp);
  }

  /** A call about the fingerprint itself. */
  lemma {:induction false} TouchRefines(cfg: Config, d: Digest, n: nat, prior: Option<Entry>, c: Call)
    requires Refines(d, prior) && d.start <= n && d.seen < n && d.raised < n
    ensures var o := Touch(cfg, prior, c);
            Refines(Move(d, n, Event(c, AlertOf(c, o.verdict)), c.Key()), o.entry)
  {
  }

  /** After any calls, the map is what their history says it is. */
  lemma {:induction false} TrackerRefinesHistory(cfg: Config, calls: seq<Call>, fp: string)
    ensures Refines(Summary(History(cfg, calls), fp), Lookup(After(cfg, calls), fp))
  {
    if calls != [] {
      var before, c := calls[..|calls| - 1], Last(calls);
      var h, m := History(cfg, before), After(cfg, before);
      var e := Event(c, Step(cfg, m, c).1);
      TrackerRefinesHistory(cfg, before, fp);
      SummaryMoves(h, e, fp);
      if c.Key() == fp { TouchRefines(cfg, Summary(h, fp), |h|, Lookup(m, fp), c); }
    }
  }

  /** When a call hands back an alert, and which: decided by what its fingerprint's history says. */
  ghost predicate DecidedBy(cfg: Config, d: Digest, c: Call, out: Option<Alert>) {
    var open := d.raised >= d.start;
    match c
    case Observe(b, now, wall) =>
      && (out.None? <==> open && Since(now, d.raisedAt) < cfg.reNotify)
      && (out.Some? ==> Describes(out.value, b, Firing, d.count + 1, wall))
    case ObserveOk(_, now, _) =>
      && (out.Some? <==> open && d.calmAt.Some? && Since(now, d.calmAt.value) >= cfg.recovery)
      && ClosesEpisode(d, c, out)
    case ForceResolve(_, _, _) => (out.Some? <==> open) && ClosesEpisode(d, c, out)
  }

  /** The alert says what the builder says, was made at `wall`, and reports a number of observes. */
  predicate Describes(a: Alert, b: Builder, state: AlertState, count: nat, wall: int) {
    && a.state == state && a.severity == b.severity && a.occurrences == count
    && a.host == b.host && a.hostId == b.hostId && a.category == b.category
    && a.metric == b.metric && a.device == b.device
    && a.ts == wall && a.firstSeen == wall && a.lastSeen == wall
    && a.fingerprint == a.hostId + "|" + a.category + "|" + a.device.GetOr("-") + "|" + a.metric
  }

  /** A Resolved alert describes the first observe of its episode and counts them all. */
  ghost predicate ClosesEpisode(d: Digest, c: Call, out: Option<Alert>) {
    out.Some? ==>
      d.first.Some? && Describes(out.value, d.first.value, Resolved, d.count, c.wall)
  }

  lemma {:induction false} DecisionsFollowHistory(cfg: Config, calls: seq<Call>, k: nat)
    requires k < |calls|
    ensures DecidedBy(cfg, Summary(History(cfg, calls)[..k], calls[k].Key()), calls[k], History(cfg, calls)[k].out)
  {
    HistoryAt(cfg, calls, k);
    TrackerRefinesHistory(cfg, calls[..k], calls[k].Key());
  }

  // ---- Timers ----

  lemma {:induction false} HistoryCalls(cfg: Config, calls: seq<Call>, i: nat)
    requires i < |calls|
    ensures History(cfg, calls)[i].call == calls[i]
  {
    HistoryAt(cfg, calls, i);
  }

  /** The sample behind `calmAt`: no observe of the fingerprint has come since. */
  lemma {:induction false} CalmSample(h: seq<Event>, fp: string) returns (j: nat)
    requires Summary(h, fp).calmAt.Some?
    ensures j < |h| && Is(h[j], fp, Calm) && h[j].call.now == Summary(h, fp).calmAt.value
    ensures NotSeen(h, fp, j)
  {
    j := FirstIs(h, fp, Calm, LastIs(h, fp, Seen) + 1);
    NoneAfterLast(h, fp, Seen);
  }

  /** A resolve by `observe_ok` closes a stretch of at least `recovery` that began with an OK sample
      and held no observe of the fingerprint; two OK samples are needed even when recovery is zero. */
  lemma {:induction false} ResolveNeedsQuietStretch(cfg: Config, calls: seq<Call>, k: nat)
    requires k < |calls| && calls[k].ObserveOk? && History(cfg, calls)[k].out.Some?
    ensures exists j :: 0 <= j < k && QuietSince(cfg, calls, j, k)
  {
    var j := CalmBefore(cfg, calls, k);
    forall i | j <= i <= k ensures !(calls[i].Observe? && calls[i].b.Fp() == calls[k].fp) {
      if i < k { StaysCalm(cfg, calls, j, k, i); }
    }
    assert QuietSince(cfg, calls, j, k);
  }

  /** The sample that starts the stretch. */
  lemma {:induction false} CalmBefore(cfg: Config, calls: seq<Call>, k: nat) returns (j: nat)
    requires k < |calls| && calls[k].ObserveOk? && History(cfg, calls)[k].out.Some?
    ensures j < k && calls[j].ObserveOk? && calls[j].fp == calls[k].fp
    ensures Since(calls[k].now, calls[j].now) >= cfg.recovery
    ensures NotSeen(History(cfg, calls)[..k], calls[k].fp, j)
  {
    DecisionsFollowHistory(cfg, calls, k);
    j := CalmSample(History(cfg, calls)[..k], calls[k].fp);
    HistoryCalls(cfg, calls, j);
  }

  lemma {:induction false} StaysCalm(cfg: Config, calls: seq<Call>, j: nat, k: nat, i: nat)
    requires j <= i < k < |calls| && calls[k].ObserveOk? && NotSeen(History(cfg, calls)[..k], calls[k].fp, j)
    ensures !(calls[i].Observe? && calls[i].b.Fp() == calls[k].fp)
  {
    HistoryCalls(cfg, calls, i);
    assert !Is(History(cfg, calls)[..k][i], calls[k].fp, Seen);
  }

  /** No observe of fp from the j-th event on. */
  ghost predicate NotSeen(h: seq<Event>, fp: string, j: nat) {
    forall i :: j <= i < |h| ==> !Is(h[i], fp, Seen)
  }

  /** Calls j and k are OK samples of one fingerprint, at least `recovery` apart, with no observe of it between them. */
  ghost predicate QuietSince(cfg: Config, calls: seq<Call>, j: nat, k: nat)
    requires j < k < |calls|
  {
    && calls[j].ObserveOk? && calls[k].ObserveOk? && calls[j].fp == calls[k].fp
    && Since(calls[k].now, calls[j].now) >= cfg.recovery
    && forall i :: j <= i <= k ==> !(calls[i].Observe? && calls[i].b.Fp() == calls[k].fp)
  }

  /** Consecutive firing alerts of one episode are at least `reNotify` apart, and so `n` of them span
      at least (n - 1) * reNotify. */
  lemma {:induction false} RaisesSpaced(cfg: Config, calls: seq<Call>, fp: string, i: nat, j: nat)
    requires i <= j < |calls|
    requires var h := History(cfg, calls);
             && Is(h[i], fp, Raised) && Is(h[j], fp, Raised)
             && forall x :: i < x < j ==> !Is(h[x], fp, Closed)
    ensures Since(calls[j].now, calls[i].now) >= CountIs(History(cfg, calls)[..j], fp, Raised, i) * cfg.reNotify
    decreases j
  {
    var h := History(cfg, calls);
    if i < j {
      var r := LastIs(h[..j], fp, Raised);
      PreviousRaise(h, fp, i, j);
      RaisesSpaced(cfg, calls, fp, i, r);
      RaiseGap(cfg, calls, fp, j);
      SpacingAdds(calls[j].now, calls[r].now, calls[i].now, CountIs(h[..r], fp, Raised, i), cfg.reNotify);
    }
  }

  /** A second firing alert of an episode comes at least `reNotify` after the one before it. */
  lemma {:induction false} RaiseGap(cfg: Config, calls: seq<Call>, fp: string, j: nat)
    requires j < |calls| && Is(History(cfg, calls)[j], fp, Raised)
    requires var g := History(cfg, calls)[..j]; LastIs(g, fp, Raised) >= EpisodeStart(g, fp)
    ensures Since(calls[j].now, calls[LastIs(History(cfg, calls)[..j], fp, Raised)].now) >= cfg.reNotify
  {
    HistoryAt(cfg, calls, j);
    HistoryAt(cfg, calls, LastIs(History(cfg, calls)[..j], fp, Raised));
    DecisionsFollowHistory(cfg, calls, j);
  }

  /** Between two raises with no close in between, the last raise belongs to the same episode. */
  lemma {:induction false} PreviousRaise(h: seq<Event>, fp: string, i: nat, j: nat)
    requires i < j < |h| && Is(h[i], fp, Raised)
    requires forall x :: i < x < j ==> !Is(h[x], fp, Closed)
    ensures var r := LastIs(h[..j], fp, Raised);
            && i <= r && r >= EpisodeStart(h[..j], fp)
            && CountIs(h[..j], fp, Raised, i) == CountIs(h[..r], fp, Raised, i) + 1
            && (CountIs(h[..r], fp, Raised, i) == 0 ==> r == i)
  {
    var g := h[..j];
    var r := LastIs(g, fp, Raised);
    NoneAfterLast(g, fp, Raised);
    assert Is(g[i], fp, Raised);
    assert !Is(h[i], fp, Closed);
    if LastIs(g, fp, Closed) >= 0 { assert Is(h[LastIs(g, fp, Closed)], fp, Closed); }
    CountUpToLast(g, fp, Raised, i);
    assert g[..r] == h[..r];
    if i < r { CountedOnce(h[..r], fp, Raised, i); }
  }

  lemma {:induction false} CountedOnce(h: seq<Event>, fp: string, k: Kind, from: nat)
    requires from < |h| && Is(h[from], fp, k)
    ensures CountIs(h, fp, k, from) > 0
  {
    if from < |h| - 1 { CountedOnce(h[..|h| - 1], fp, k, from); }
  }

  lemma {:induction false} CountUpToLast(h: seq<Event>, fp: string, k: Kind, from: nat)
    requires from <= LastIs(h, fp, k)
    ensures CountIs(h, fp, k, from) == CountIs(h[..LastIs(h, fp, k)], fp, k, from) + 1
  {
    var r := LastIs(h, fp, k);
    var g := h[..|h| - 1];
    if r < |g| {
      CountUpToLast(g, fp, k, from);
      assert g[..r] == h[..r];
    }
  }

  lemma SpacingAdds(t2: int, t1: int, t0: int, n: nat, gap: nat)
    requires Since(t2, t1) >= gap && Since(t1, t0) >= n * gap && (n == 0 ==> t1 == t0)
    ensures Since(t2, t0) >= (n + 1) * gap
  {
    assert (n + 1) * gap == n * gap + gap;
    if gap > 0 && n > 0 {
      assert n * gap >= gap;
    }
  }

  /** The alerts emitted for a fingerprint read (Firing+ Resolved)*: at every point the last one is
      Firing iff an entry is open, and a Resolved is emitted only then. */
  lemma {:induction false} EmissionPattern(cfg: Config, calls: seq<Call>, fp: string, k: nat)
    requires k < |calls| && Is(History(cfg, calls)[k], fp, Closed)
    ensures var h := History(cfg, calls)[..k]; LastIs(h, fp, Raised) > LastIs(h, fp, Closed)
    ensures exists j :: 0 <= j < k && Is(History(cfg, calls)[j], fp, Raised)
              && forall i :: j < i < k ==> !Is(History(cfg, calls)[i], fp, Closed)
  {
    HistoryAt(cfg, calls, k);
    DecisionsFollowHistory(cfg, calls, k);
    var h := History(cfg, calls)[..k];
    var j := LastIs(h, fp, Raised);
    assert Is(h[j], fp, Raised);
    NoneAfterLast(h, fp, Closed);
    forall i | j < i < k ensures !Is(History(cfg, calls)[i], fp, Closed) { assert !Is(h[i], fp, Closed); }
  }

  // ---- Fingerprint coherence ----

  /** Every key is the fingerprint of the template stored under it. */
  ghost predicate Coherent(m: Entries) {
    forall fp <- m :: m[fp].template.Fp() == fp
  }

  lemma {:induction false} TouchCoherent(cfg: Config, prior: Option<Entry>, c: Call)
    requires prior.Some? ==> prior.value.template.Fp() == c.Key()
    ensures var o := Touch(cfg, prior, c);
            && (o.entry.Some? ==> o.entry.value.template.Fp() == c.Key())
            && (AlertOf(c, o.verdict).Some? ==> OwnFingerprint(AlertOf(c, o.verdict).value, c.Key()))
  {
  }

  predicate OwnFingerprint(a: Alert, fp: string) {
    a.fingerprint == fp == Fingerprint(a.hostId, a.category, a.device, a.metric)
  }

  lemma {:induction false} AlwaysCoherent(cfg: Config, calls: seq<Call>)
    ensures Coherent(After(cfg, calls))
  {
    if calls != [] {
      var before := After(cfg, calls[..|calls| - 1]);
      AlwaysCoherent(cfg, calls[..|calls| - 1]);
      TouchCoherent(cfg, Lookup(before, Last(calls).Key()), Last(calls));
    }
  }

  /** An emitted alert carries the fingerprint it was asked about, which is that of its own fields,
      so a Resolved alert names the Firing alert that it closes. */
  lemma {:induction false} EmissionsCoherent(cfg: Config, calls: seq<Call>, k: nat)
    requires k < |calls| && History(cfg, calls)[k].out.Some?
    ensures OwnFingerprint(History(cfg, calls)[k].out.value, calls[k].Key())
  {
    HistoryAt(cfg, calls, k);
    AlwaysCoherent(cfg, calls[..k]);
    TouchCoherent(cfg, Lookup(After(cfg, calls[..k]), calls[k].Key()), calls[k]);
  }
}
