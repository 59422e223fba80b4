/** The rate limiter and the retry of one outbound webhook: collector/src/webhooks.rs. */
module Webhook {
  import opened Basics
  import opened Shared
  import opened Windows

  // ---- Filters ----

  function Rank(s: Severity): nat {
    match s
    case Info => 0
    case Warning => 1
    case Critical => 2
  }

  /** The two optional patterns are predicates here; a missing one lets everything through. */
  datatype Filters = Filters(
    minimum: Severity, firing: bool, resolved: bool, host: Option<string -> bool>, category: Option<string -> bool>)

  predicate Passes(f: Filters, a: Alert): (p: bool)
    ensures p <==>
            && (a.severity == Info ==> f.minimum == Info) && (a.severity == Severity.Warning ==> f.minimum != Critical)
            && (a.state == Firing ==> f.firing) && (a.state == Resolved ==> f.resolved)
            && (f.host == None || f.host.value(a.host)) && (f.category == None || f.category.value(a.category))
  {
    && Rank(a.severity) >= Rank(f.minimum)
    && (if a.state == Firing then f.firing else f.resolved)
    && (f.host.Some? ==> f.host.value(a.host))
    && (f.category.Some? ==> f.category.value(a.category))
  }

  // ---- Delivery ----

  datatype Reply = Accepted | TooMany | ServerError | OtherStatus | NetworkError

  /** One post, and a second one only after 429, 5xx or a network error. */
  function PostsFor(first: Reply): nat {
    match first
    case Accepted => 1
    case OtherStatus => 1
    case TooMany => 2
    case ServerError => 2
    case NetworkError => 2
  }

  /** `deliver`: at most two posts, the second only after a reply worth a retry. */
  method Deliver(replies: (Reply, Reply)) returns (posts: nat, ok: bool)
    ensures posts == PostsFor(replies.0)
    ensures ok <==> replies.0 == Accepted || (replies.0 !in {Accepted, OtherStatus} && replies.1 == Accepted)
  {
    posts, ok := 0, false;
    for attempt := 1 to 3
      invariant posts == attempt - 1 && !ok
      invariant attempt > 1 ==> replies.0 !in {Accepted, OtherStatus}
      invariant attempt > 2 ==> replies.1 !in {Accepted, OtherStatus}
    {
      posts := posts + 1;
      var reply := if attempt == 1 then replies.0 else replies.1;
      if reply == Accepted {
        ok := true;
        return;
      }
      if reply == OtherStatus { return; }
    }
  }

  // ---- The limiter ----

  /** An alert taken off the feed: when, and what the endpoint would answer. */
  datatype Arrival = Arrival(a: Alert, now: nat, replies: (Reply, Reply))

  ghost predicate InTime(evs: seq<Arrival>) {
    forall i, j :: 0 <= i <= j < |evs| ==> evs[i].now <= evs[j].now
  }

  /** Times of the admitted among the first arrivals. */
  function Admissions(evs: seq<Arrival>, admitted: seq<bool>): seq<nat>
    requires |admitted| <= |evs|
  {
    if admitted == [] then []
    else
      var n := |admitted| - 1;
      var before := Admissions(evs, admitted[..n]);
      if admitted[n] then before + [evs[n].now] else before
  }

  /** The i-th arrival is admitted iff it passes and fewer than `rate` were admitted in the minute
      that ends with it. */
  predicate AdmitRule(f: Filters, rate: nat, evs: seq<Arrival>, admitted: seq<bool>, i: nat)
    requires i < |admitted| <= |evs|
  {
    admitted[i] <==> Passes(f, evs[i].a) && |Recent(Admissions(evs, admitted[..i]), evs[i].now, MINUTE)| < rate
  }

  predicate Follows(f: Filters, rate: nat, evs: seq<Arrival>, admitted: seq<bool>) {
    |admitted| <= |evs| && forall i :: 0 <= i < |admitted| ==> AdmitRule(f, rate, evs, admitted, i)
  }

  /** How many posts the admitted among the first arrivals get. */
  function PostsOf(evs: seq<Arrival>, admitted: seq<bool>): nat
    requires |admitted| <= |evs|
  {
    if admitted == [] then 0
    else
      var n := |admitted| - 1;
      PostsOf(evs, admitted[..n]) + if admitted[n] then PostsFor(evs[n].replies.0) else 0
  }

  lemma {:induction false} FollowsSnoc(f: Filters, rate: nat, evs: seq<Arrival>, admitted: seq<bool>, b: bool)
    requires Follows(f, rate, evs, admitted) && |admitted| < |evs|
    requires b <==> Passes(f, evs[|admitted|].a)
                    && |Recent(Admissions(evs, admitted), evs[|admitted|].now, MINUTE)| < rate
    ensures Follows(f, rate, evs, admitted + [b])
  {
    var bs := admitted + [b];
    forall i | 0 <= i < |bs| ensures AdmitRule(f, rate, evs, bs, i) {
      if i < |admitted| {
        assert AdmitRule(f, rate, evs, admitted, i);
        assert bs[..i] == admitted[..i];
      } else {
        assert bs[..i] == admitted;
      }
    }
  }

  lemma RecentShrinks(ts: seq<nat>, now: nat, w: nat)
    ensures |Recent(ts, now, w)| <= |ts|
  {
  }

  type RateU32 = x: nat | x < U32

  /** The limiter's list once old entries are dropped, as `as u32` sees it. */
  method Retain(window: seq<nat>, now: nat, rate: RateU32) returns (kept: seq<nat>, room: bool)
    requires |window| <= rate
    ensures kept == Recent(window, now, MINUTE) && |kept| <= rate
    ensures room <==> |kept| < rate
  {
    kept := Recent(window, now, MINUTE);
    RecentShrinks(window, now, MINUTE);
    room := !(|kept| % U32 >= rate);
  }

  /** `run_one` over a finite feed; `kindKnown` is whether the configured kind is one that has a body. */
  method RunOne(f: Filters, rate: RateU32, kindKnown: bool, evs: seq<Arrival>) returns (admitted: seq<bool>, posts: nat)
    requires InTime(evs)
    ensures |admitted| == |evs| && Follows(f, rate, evs, admitted)
    ensures posts == if kindKnown then PostsOf(evs, admitted) else 0
  {
    admitted, posts := [], 0;
    var window: seq<nat> := [];
    ghost var at: nat := 0;
    for i := 0 to |evs|
      invariant |admitted| == i && Follows(f, rate, evs, admitted)
      invariant posts == if kindKnown then PostsOf(evs, admitted) else 0
      invariant i < |evs| ==> at <= evs[i].now
      invariant |window| <= rate && window == Recent(Admissions(evs, admitted), at, MINUTE)
    {
      var now, room := evs[i].now, false;
      ghost var past := Admissions(evs, admitted);
      var take := false;
      if Passes(f, evs[i].a) {
        RecentLater(past, at, now, MINUTE);
        window, room := Retain(window, now, rate);
        take := room;
        at := now;
        if take {
          RecentSnoc(past, now, now, MINUTE);
          window := window + [now];
          if kindKnown {
            var n, _ := Deliver(evs[i].replies);
            posts := posts + n;
          }
        }
      }
      FollowsSnoc(f, rate, evs, admitted, take);
      admitted := admitted + [take];
    }
  }

  // ---- What the rule promises ----

  function CountWithin(ts: seq<nat>, lo: nat, hi: nat): nat {
    if ts == [] then 0
    else CountWithin(ts[..|ts| - 1], lo, hi) + if lo <= ts[|ts| - 1] <= hi then 1 else 0
  }

  lemma {:induction false} AdmissionsBounded(evs: seq<Arrival>, admitted: seq<bool>, bound: nat)
    requires InTime(evs) && |admitted| <= |evs| && (admitted != [] ==> evs[|admitted| - 1].now <= bound)
    ensures AtMost(Admissions(evs, admitted), bound)
  {
    if admitted != [] {
      var n := |admitted| - 1;
      AdmissionsBounded(evs, admitted[..n], bound);
    }
  }

  /** Entries between lo and now are all recent at now, if now is at most a minute after lo. */
  lemma {:induction false} WithinIsRecent(ts: seq<nat>, lo: nat, hi: nat, now: nat)
    requires AtMost(ts, now) && now <= lo + MINUTE
    ensures CountWithin(ts, lo, hi) <= |Recent(ts, now, MINUTE)|
  {
    if ts != [] { WithinIsRecent(ts[..|ts| - 1], lo, hi, now); }
  }

  lemma {:induction false} FollowsPrefix(f: Filters, rate: nat, evs: seq<Arrival>, admitted: seq<bool>, n: nat)
    requires Follows(f, rate, evs, admitted) && n <= |admitted|
    ensures Follows(f, rate, evs, admitted[..n])
  {
    var before := admitted[..n];
    forall i | 0 <= i < n ensures AdmitRule(f, rate, evs, before, i) {
      assert AdmitRule(f, rate, evs, admitted, i);
      assert before[..i] == admitted[..i];
    }
  }

  /** No closed interval of 60 seconds holds more than `rate` admissions. */
  lemma {:induction false} RateHolds(f: Filters, rate: nat, evs: seq<Arrival>, admitted: seq<bool>, lo: nat)
    requires InTime(evs) && Follows(f, rate, evs, admitted)
    ensures CountWithin(Admissions(evs, admitted), lo, lo + 60_000_000_000) <= rate
  {
    if admitted != [] {
      var n := |admitted| - 1;
      var before, now := admitted[..n], evs[n].now;
      var past := Admissions(evs, before);
      FollowsPrefix(f, rate, evs, admitted, n);
      RateHolds(f, rate, evs, before, lo);
      if admitted[n] {
        assert AdmitRule(f, rate, evs, admitted, n);
        if lo <= now <= lo + MINUTE {
          AdmissionsBounded(evs, before, now);
          WithinIsRecent(past, lo, lo + MINUTE, now);
        }
      }
    }
  }

  lemma {:induction false} RecentIsWithin(ts: seq<nat>, now: nat)
    requires AtMost(ts, now)
    ensures |Recent(ts, now, MINUTE)| == CountWithin(ts, if now >= MINUTE then now - MINUTE else 0, now)
  {
    if ts != [] { RecentIsWithin(ts[..|ts| - 1], now); }
  }

  lemma {:induction false} CountWithinMonotone(ts: seq<nat>, lo: nat, hi: nat, hi': nat)
    requires hi <= hi'
    ensures CountWithin(ts, lo, hi) <= CountWithin(ts, lo, hi')
  {
    if ts != [] { CountWithinMonotone(ts[..|ts| - 1], lo, hi, hi'); }
  }

  /** An alert that passes the filters is dropped exactly when precisely `rate` alerts were admitted in
      the 60 seconds before it. */
  lemma {:induction false} DroppedOnlyWhenFull(f: Filters, rate: nat, evs: seq<Arrival>, admitted: seq<bool>, i: nat)
    requires InTime(evs) && Follows(f, rate, evs, admitted)
    requires i < |admitted| && Passes(f, evs[i].a)
    ensures var now := evs[i].now;
            var start := if now >= 60_000_000_000 then now - 60_000_000_000 else 0;
            !admitted[i] <==> CountWithin(Admissions(evs, admitted[..i]), start, now) == rate
  {
    var before, now := admitted[..i], evs[i].now;
    assert AdmitRule(f, rate, evs, admitted, i);
    FollowsPrefix(f, rate, evs, admitted, i);
    AdmissionsBounded(evs, before, now);
    var lo := if now >= MINUTE then now - MINUTE else 0;
    RecentIsWithin(Admissions(evs, before), now);
    RateHolds(f, rate, evs, before, lo);
    CountWithinMonotone(Admissions(evs, before), lo, now, lo + MINUTE);
  }
}
