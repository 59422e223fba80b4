/** Link state and flapping of network interfaces: `run_rtnetlink` of agent/src/modules/network_nic.rs. */
module Nic {
  import opened Basics
  import opened Shared
  import opened Tracker
  import W = Windows

  /** A RTM_NEWLINK message, decoded: the interface index, and its name and operstate if present. */
  datatype LinkMsg = LinkMsg(ifindex: nat, name: Option<string>, oper: Option<string>, now: nat, wall: int)

  datatype Nic = Nic(host: string, hostId: string, flapWindow: nat, flapThreshold: nat, ignored: string -> bool)

  /** The three maps of one session. */
  datatype Session = Session(names: map<nat, string>, last: map<nat, string>, history: map<nat, seq<nat>>)

  const EMPTY := Session(map[], map[], map[])

  const NETWORK_NIC := "network_nic"

  function DownBuilder(n: Nic, iface: string): Builder {
    Builder(n.host, n.hostId, NETWORK_NIC, "link_down", Warning, Some(iface))
  }

  function FlapBuilder(n: Nic, iface: string): Builder {
    Builder(n.host, n.hostId, NETWORK_NIC, "link_flapping", Warning, Some(iface))
  }

  function DownFp(n: Nic, iface: string): string { Fingerprint(n.hostId, NETWORK_NIC, Some(iface), "link_down") }

  function NamesAfter(s: Session, m: LinkMsg): map<nat, string> {
    if m.name.Some? then s.names[m.ifindex := m.name.value] else s.names
  }

  /** A message counts if it is about a named interface that is not ignored and brings a new operstate. */
  predicate Recorded(n: Nic, s: Session, m: LinkMsg) {
    && m.ifindex in NamesAfter(s, m) && !n.ignored(NamesAfter(s, m)[m.ifindex])
    && m.oper.Some? && !(m.ifindex in s.last && s.last[m.ifindex] == m.oper.value)
  }

  /** The interface's window once this transition is in it. */
  function WindowAfter(n: Nic, s: Session, m: LinkMsg): seq<nat> {
    var win := if m.ifindex in s.history then s.history[m.ifindex] else [];
    W.Recent(win + [m.now], m.now, n.flapWindow)
  }

  function SessionAfter(n: Nic, s: Session, m: LinkMsg): Session {
    if Recorded(n, s, m) then
      Session(NamesAfter(s, m), s.last[m.ifindex := m.oper.value], s.history[m.ifindex := WindowAfter(n, s, m)])
    else s.(names := NamesAfter(s, m))
  }

  /** The call about link_down that a transition leads to: `known` says whether a state was recorded before. */
  function LinkCall(n: Nic, iface: string, state: string, known: bool, m: LinkMsg): seq<Call> {
    if state != "up" then [Observe(DownBuilder(n, iface), m.now, m.wall)]
    else if known then [ForceResolve(DownFp(n, iface), m.now, m.wall)]
    else []
  }

  /** The call about link_flapping, given the window with the transition in. */
  function FlapCall(n: Nic, iface: string, win: seq<nat>, m: LinkMsg): seq<Call> {
    if W.Reaches32(|win|, n.flapThreshold) then [Observe(FlapBuilder(n, iface), m.now, m.wall)] else []
  }

  function Asks(n: Nic, s: Session, m: LinkMsg): seq<Call> {
    if Recorded(n, s, m)
    then
      var iface := NamesAfter(s, m)[m.ifindex];
      LinkCall(n, iface, m.oper.value, m.ifindex in s.last, m) + FlapCall(n, iface, WindowAfter(n, s, m), m)
    else []
  }

  function SessionOf(n: Nic, ms: seq<LinkMsg>): Session {
    if ms == [] then EMPTY else SessionAfter(n, SessionOf(n, ms[..|ms| - 1]), Last(ms))
  }

  function CallsOf(n: Nic, ms: seq<LinkMsg>): seq<Call> {
    if ms == [] then []
    else CallsOf(n, ms[..|ms| - 1]) + Asks(n, SessionOf(n, ms[..|ms| - 1]), Last(ms))
  }

  lemma OneMore(n: Nic, ms: seq<LinkMsg>, i: nat)
    requires i < |ms|
    ensures SessionOf(n, ms[..i + 1]) == SessionAfter(n, SessionOf(n, ms[..i]), ms[i])
    ensures CallsOf(n, ms[..i + 1]) == CallsOf(n, ms[..i]) + Asks(n, SessionOf(n, ms[..i]), ms[i])
  {
    assert ms[..i + 1][..i] == ms[..i];
  }

  /** Every interface's window is in time order, and not ahead of the clock. */
  ghost predicate Ordered(s: Session, now: nat) {
    forall i <- s.history :: W.NonDecreasing(s.history[i]) && W.AtMost(s.history[i], now)
  }

  lemma OrderedStep(n: Nic, s: Session, m: LinkMsg)
    requires Ordered(s, m.now)
    ensures Ordered(SessionAfter(n, s, m), m.now)
    ensures m.ifindex in s.history ==> W.NonDecreasing(s.history[m.ifindex] + [m.now])
  {
    var win := if m.ifindex in s.history then s.history[m.ifindex] else [];
    W.NonDecreasingSnoc(win, m.now);
    W.RecentWithin(win + [m.now], m.now, n.flapWindow, m.now);
  }

  /** One message: what becomes of the session's maps, and what is asked of the tracker, in order. */
  method OnLink(n: Nic, s: Session, m: LinkMsg) returns (s': Session, calls: seq<Call>)
    requires Ordered(s, m.now)
    ensures s' == SessionAfter(n, s, m) && calls == Asks(n, s, m)
  {
    var names := s.names;
    if m.name.Some? {
      names := names[m.ifindex := m.name.value];
    }
    s', calls := s.(names := names), [];
    if m.ifindex !in names { return; }
    var iface := names[m.ifindex];
    if n.ignored(iface) { return; }
    if m.oper.None? { return; }
    var state, known := m.oper.value, m.ifindex in s.last;
    if known && s.last[m.ifindex] == state { return; }

    var win := Push(n, s, m);
    s' := Session(names, s.last[m.ifindex := state], s.history[m.ifindex := win]);
    calls := LinkCall(n, iface, state, known, m) + FlapCall(n, iface, win, m);
  }

  /** The interface's deque with this transition pushed and the old ones popped. */
  method Push(n: Nic, s: Session, m: LinkMsg) returns (win: seq<nat>)
    requires Ordered(s, m.now)
    ensures win == WindowAfter(n, s, m)
  {
    win := if m.ifindex in s.history then s.history[m.ifindex] else [];
    W.NonDecreasingSnoc(win, m.now);
    win := W.PopOld(win + [m.now], m.now, n.flapWindow);
  }

  method OnMessage(n: Nic, s: Session, m: LinkMsg, tracker: AlertTracker, sent: seq<Alert>, ghost k: nat)
    returns (s': Session, sent': seq<Alert>)
    requires Ordered(s, m.now)
    requires tracker.Valid() && k <= |tracker.calls| && sent == OutsFrom(History(tracker.cfg, tracker.calls), k)
    modifies tracker
    ensures s' == SessionAfter(n, s, m) && Ordered(s', m.now)
    ensures tracker.Valid() && tracker.calls == old(tracker.calls) + Asks(n, s, m)
    ensures sent' == OutsFrom(History(tracker.cfg, tracker.calls), k)
  {
    OrderedStep(n, s, m);
    var calls;
    s', calls := OnLink(n, s, m);
    sent' := AskAll(tracker, calls, sent, k);
  }

  ghost predicate InOrder(ms: seq<LinkMsg>) {
    forall i, j :: 0 <= i <= j < |ms| ==> ms[i].now <= ms[j].now
  }

  /** One rtnetlink session over a finite stream of messages. */
  method RunRtnetlink(n: Nic, ms: seq<LinkMsg>, tracker: AlertTracker) returns (sent: seq<Alert>)
    requires tracker.Valid() && InOrder(ms)
    modifies tracker
    ensures tracker.Valid() && tracker.calls == old(tracker.calls) + CallsOf(n, ms)
    ensures sent == OutsFrom(History(tracker.cfg, tracker.calls), |old(tracker.calls)|)
  {
    sent := [];
    var s := EMPTY;
    ghost var k := |tracker.calls|;
    for i := 0 to |ms|
      invariant tracker.Valid() && s == SessionOf(n, ms[..i])
      invariant i < |ms| ==> Ordered(s, ms[i].now)
      invariant tracker.calls == old(tracker.calls) + CallsOf(n, ms[..i])
      invariant sent == OutsFrom(History(tracker.cfg, tracker.calls), k)
    {
      OneMore(n, ms, i);
      Regroup(old(tracker.calls), CallsOf(n, ms[..i]), Asks(n, s, ms[i]));
      s, sent := OnMessage(n, s, ms[i], tracker, sent, k);
    }
    assert ms[..|ms|] == ms;
  }

  // ---- The tracker under a session's calls ----

  /** The map after some calls made on it. */
  function Applied(cfg: Config, m: Entries, cs: seq<Call>): Entries {
    if cs == [] then m else Step(cfg, Applied(cfg, m, cs[..|cs| - 1]), Last(cs)).0
  }

  /** The alerts handed back by those calls. */
  function Emitted(cfg: Config, m: Entries, cs: seq<Call>): seq<Alert> {
    if cs == [] then []
    else
      var before := cs[..|cs| - 1];
      var out := Step(cfg, Applied(cfg, m, before), Last(cs)).1;
      Emitted(cfg, m, before) + if out.Some? then [out.value] else []
  }

  lemma {:induction false} AppliedConcat(cfg: Config, m: Entries, a: seq<Call>, b: seq<Call>)
    ensures Applied(cfg, m, a + b) == Applied(cfg, Applied(cfg, m, a), b)
  {
    if b == [] {
      assert a + b == a;
    } else {
      assert (a + b)[..|a + b| - 1] == a + b[..|b| - 1];
      AppliedConcat(cfg, m, a, b[..|b| - 1]);
    }
  }

  lemma {:induction false} EmittedConcat(cfg: Config, m: Entries, a: seq<Call>, b: seq<Call>)
    ensures Emitted(cfg, m, a + b) == Emitted(cfg, m, a) + Emitted(cfg, Applied(cfg, m, a), b)
  {
    if b == [] {
      assert a + b == a;
    } else {
      var most := b[..|b| - 1];
      assert (a + b)[..|a + b| - 1] == a + most;
      EmittedConcat(cfg, m, a, most);
      AppliedConcat(cfg, m, a, most);
      var out := Step(cfg, Applied(cfg, m, a + most), Last(b)).1;
      Regroup(Emitted(cfg, m, a), Emitted(cfg, Applied(cfg, m, a), most), if out.Some? then [out.value] else []);
    }
  }

  lemma AppliedOne(cfg: Config, m: Entries, c: Call)
    ensures Applied(cfg, m, [c]) == Step(cfg, m, c).0
    ensures Emitted(cfg, m, [c]) == if Step(cfg, m, c).1.Some? then [Step(cfg, m, c).1.value] else []
  {
    assert [c][..0] == [];
  }

  /** What the object's calls have done, seen from any earlier point. */
  lemma {:induction false} AfterApplied(cfg: Config, calls: seq<Call>, cs: seq<Call>)
    ensures After(cfg, calls + cs) == Applied(cfg, After(cfg, calls), cs)
  {
    if cs == [] {
      assert calls + cs == calls;
    } else {
      assert (calls + cs)[..|calls + cs| - 1] == calls + cs[..|cs| - 1];
      AfterApplied(cfg, calls, cs[..|cs| - 1]);
    }
  }

  /** What calls do to the presence of one key. */
  function KeyAfter(before: bool, c: Call, k: string): bool
    requires !c.ObserveOk?
  {
    if c.Key() != k then before else c.Observe?
  }

  lemma KeyStep(cfg: Config, m: Entries, c: Call, k: string)
    requires !c.ObserveOk?
    ensures k in Step(cfg, m, c).0 <==> KeyAfter(k in m, c, k)
  {
  }

  // ---- What a session has heard, read off the messages alone ----

  /** The name last given to an interface. */
  function NameOf(ms: seq<LinkMsg>, i: nat): Option<string> {
    if ms == [] then None
    else if Last(ms).ifindex == i && Last(ms).name.Some? then Last(ms).name
    else NameOf(ms[..|ms| - 1], i)
  }

  /** Message k tells the operstate of interface i: it is about it, it brings one, and the interface goes by a name
      by then, one that is not ignored. */
  predicate Heard(n: Nic, ms: seq<LinkMsg>, i: nat, k: nat)
    requires k < |ms|
  {
    && ms[k].ifindex == i && ms[k].oper.Some?
    && NameOf(ms[..k + 1], i).Some? && !n.ignored(NameOf(ms[..k + 1], i).value)
  }

  /** Message j is the last that tells the operstate of interface i. */
  ghost predicate LastHeard(n: Nic, ms: seq<LinkMsg>, i: nat, j: nat) {
    j < |ms| && Heard(n, ms, i, j) && forall l :: j < l < |ms| ==> !Heard(n, ms, i, l)
  }

  /** Message k tells a new operstate: what was told last before it, if anything was, is another. */
  ghost predicate Turned(n: Nic, ms: seq<LinkMsg>, i: nat, k: nat)
    requires k < |ms|
  {
    Heard(n, ms, i, k) && forall j: nat :: LastHeard(n, ms[..k], i, j) ==> ms[j].oper != ms[k].oper
  }

  /** The last state told of interface i is not "up". */
  ghost predicate LastNotUp(n: Nic, ms: seq<LinkMsg>, i: nat) {
    exists j: nat :: LastHeard(n, ms, i, j) && ms[j].oper != Some("up")
  }

  /** The messages that told a new operstate, among those not older than the window. */
  ghost function TurnedWithin(n: Nic, ms: seq<LinkMsg>, i: nat, now: nat, w: nat): set<nat> {
    set k: nat | k < |ms| && Turned(n, ms, i, k) && now - ms[k].now <= w
  }

  lemma HeardBefore(n: Nic, ms: seq<LinkMsg>, z: nat, i: nat, k: nat)
    requires k < z <= |ms|
    ensures Heard(n, ms[..z], i, k) <==> Heard(n, ms, i, k)
  {
    assert ms[..z][..k + 1] == ms[..k + 1];
  }

  lemma TurnedBefore(n: Nic, ms: seq<LinkMsg>, z: nat, i: nat, k: nat)
    requires k < z <= |ms|
    ensures Turned(n, ms[..z], i, k) <==> Turned(n, ms, i, k)
  {
    HeardBefore(n, ms, z, i, k);
    assert ms[..z][..k] == ms[..k];
    assert forall j :: 0 <= j <= k ==> ms[..z][j] == ms[j];
  }

  lemma {:induction false} LastHeardSnoc(n: Nic, ms: seq<LinkMsg>, m: LinkMsg, i: nat, j: nat)
    ensures LastHeard(n, ms + [m], i, j)
       <==> if Heard(n, ms + [m], i, |ms|) then j == |ms| else LastHeard(n, ms, i, j)
  {
    var all := ms + [m];
    assert all[..|ms|] == ms;
    forall l | 0 <= l < |ms| ensures Heard(n, all, i, l) <==> Heard(n, ms, i, l) { HeardBefore(n, all, |ms|, i, l); }
  }

  function Find<T>(m: map<nat, T>, i: nat): Option<T> { if i in m then Some(m[i]) else None }

  lemma {:induction false} NamesAsGiven(n: Nic, ms: seq<LinkMsg>, i: nat)
    ensures Find(SessionOf(n, ms).names, i) == NameOf(ms, i)
  {
    if ms != [] { NamesAsGiven(n, ms[..|ms| - 1], i); }
  }

  lemma {:induction false} HeardNow(n: Nic, ms: seq<LinkMsg>, m: LinkMsg, i: nat)
    ensures var names := NamesAfter(SessionOf(n, ms), m);
            && Find(names, i) == NameOf(ms + [m], i)
            && (Heard(n, ms + [m], i, |ms|) <==>
                  m.ifindex == i && i in names && !n.ignored(names[i]) && m.oper.Some?)
  {
    var all := ms + [m];
    assert all[..|ms|] == ms && all[..|ms| + 1] == all;
    NamesAsGiven(n, ms, i);
  }

  lemma {:induction false} LastAsHeard(n: Nic, ms: seq<LinkMsg>, i: nat)
    ensures Find(SessionOf(n, ms).last, i).Some? ==> exists j: nat :: LastHeard(n, ms, i, j)
    ensures forall j: nat :: LastHeard(n, ms, i, j) ==> Find(SessionOf(n, ms).last, i) == ms[j].oper
  {
    if ms != [] {
      var before, m := ms[..|ms| - 1], Last(ms);
      assert ms == before + [m];
      LastAsHeard(n, before, i);
      HeardNow(n, before, m, i);
      forall j: nat ensures LastHeard(n, ms, i, j) <==>
                         if Heard(n, ms, i, |before|) then j == |before| else LastHeard(n, before, i, j)
      {
        LastHeardSnoc(n, before, m, i, j);
      }
      if Heard(n, ms, i, |before|) {
        assert LastHeard(n, ms, i, |before|);
      }
    }
  }

  /** After any messages, the session holds a state of an interface iff one was heard, and it is the one heard last. */
  lemma {:induction false} SessionHeard(n: Nic, ms: seq<LinkMsg>, i: nat)
    ensures i in SessionOf(n, ms).last <==> exists k: nat :: k < |ms| && Heard(n, ms, i, k)
    ensures forall k: nat :: k < |ms| && Heard(n, ms, i, k) && (forall l :: k < l < |ms| ==> !Heard(n, ms, i, l)) ==>
              SessionOf(n, ms).last[i] == ms[k].oper.value
  {
    LastAsHeard(n, ms, i);
    if k: nat :| k < |ms| && Heard(n, ms, i, k) { var j := LastOne(n, ms, i, k); }
    forall k: nat | k < |ms| && Heard(n, ms, i, k) && (forall l :: k < l < |ms| ==> !Heard(n, ms, i, l))
      ensures SessionOf(n, ms).last[i] == ms[k].oper.value
    {
      assert LastHeard(n, ms, i, k);
    }
  }

  lemma {:induction false} LastOne(n: Nic, ms: seq<LinkMsg>, i: nat, k: nat) returns (j: nat)
    requires k < |ms| && Heard(n, ms, i, k)
    ensures k <= j && LastHeard(n, ms, i, j)
  {
    j := k;
    for z := k + 1 to |ms|
      invariant k <= j < z && Heard(n, ms, i, j) && forall l :: j < l < z ==> !Heard(n, ms, i, l)
    {
      if Heard(n, ms, i, z) { j := z; }
    }
  }

  /** A message is recorded exactly when it tells a new operstate. */
  lemma {:induction false} RecordedExactly(n: Nic, ms: seq<LinkMsg>, m: LinkMsg)
    ensures Recorded(n, SessionOf(n, ms), m) <==> Turned(n, ms + [m], m.ifindex, |ms|)
  {
    var i, all := m.ifindex, ms + [m];
    assert all[..|ms|] == ms;
    HeardNow(n, ms, m, i);
    LastAsHeard(n, ms, i);
    if Heard(n, all, i, |ms|) && i in SessionOf(n, ms).last {
      var j: nat :| LastHeard(n, ms, i, j);
      assert all[j] == ms[j];
    }
    assert forall j: nat :: LastHeard(n, ms, i, j) ==> all[j] == ms[j];
  }

  /** The messages about an interface that told a new operstate, in order. */
  ghost function Changes(n: Nic, ms: seq<LinkMsg>, i: nat): seq<LinkMsg> {
    if ms == [] then []
    else if Turned(n, ms, i, |ms| - 1) then Changes(n, ms[..|ms| - 1], i) + [Last(ms)]
    else Changes(n, ms[..|ms| - 1], i)
  }

  lemma {:induction false} ChangesSnoc(n: Nic, ms: seq<LinkMsg>, m: LinkMsg, i: nat)
    ensures Changes(n, ms + [m], i)
         == if m.ifindex == i && Recorded(n, SessionOf(n, ms), m) then Changes(n, ms, i) + [m] else Changes(n, ms, i)
  {
    assert (ms + [m])[..|ms|] == ms;
    RecordedExactly(n, ms, m);
  }

  function TimesOf(cs: seq<LinkMsg>): seq<nat> {
    if cs == [] then [] else TimesOf(cs[..|cs| - 1]) + [Last(cs).now]
  }

  lemma {:induction false} TurnedSnoc(n: Nic, ms: seq<LinkMsg>, i: nat, now: nat, w: nat)
    requires ms != []
    ensures var z, before := |ms| - 1, TurnedWithin(n, ms[..|ms| - 1], i, now, w);
            TurnedWithin(n, ms, i, now, w)
            == if Turned(n, ms, i, z) && now - ms[z].now <= w then before + {z} else before
  {
    var z := |ms| - 1;
    forall k: nat | k < z ensures Turned(n, ms[..z], i, k) <==> Turned(n, ms, i, k) { TurnedBefore(n, ms, z, i, k); }
  }

  lemma {:induction false} ChangesCounted(n: Nic, ms: seq<LinkMsg>, i: nat, now: nat, w: nat)
    ensures |W.Recent(TimesOf(Changes(n, ms, i)), now, w)| == |TurnedWithin(n, ms, i, now, w)|
  {
    if ms == [] {
      assert TurnedWithin(n, ms, i, now, w) == {};
    } else {
      var z := |ms| - 1;
      var cs := Changes(n, ms[..z], i);
      ChangesCounted(n, ms[..z], i, now, w);
      TurnedSnoc(n, ms, i, now, w);
      assert z !in TurnedWithin(n, ms[..z], i, now, w);
      if Turned(n, ms, i, z) {
        W.RecentSnoc(TimesOf(cs), ms[z].now, now, w);
      }
    }
  }

  // ---- What a session holds of an interface ----

  /** The last state and the window are read off the messages that told something new. */
  ghost predicate ReadOff(w: nat, last: Option<string>, history: Option<seq<nat>>, cs: seq<LinkMsg>) {
    && (forall c <- cs :: c.oper.Some?)
    && (last.Some? <==> cs != []) && (history.Some? <==> cs != [])
    && (cs != [] ==>
          && last.value == Last(cs).oper.value
          && history.value == W.Recent(TimesOf(cs), Last(cs).now, w)
          && W.AtMost(TimesOf(cs), Last(cs).now) && W.NonDecreasing(TimesOf(cs)))
  }

  ghost predicate SessionFits(n: Nic, s: Session, i: nat, cs: seq<LinkMsg>) {
    ReadOff(n.flapWindow, Find(s.last, i), Find(s.history, i), cs)
  }

  lemma {:induction false} WindowPushed(w: nat, last: Option<string>, history: Option<seq<nat>>,
                                        cs: seq<LinkMsg>, m: LinkMsg)
    requires ReadOff(w, last, history, cs) && m.oper.Some? && (cs != [] ==> Last(cs).now <= m.now)
    ensures ReadOff(w, m.oper, Some(W.Recent(history.GetOr([]) + [m.now], m.now, w)), cs + [m])
  {
    W.NonDecreasingSnoc(TimesOf(cs), m.now);
    W.RecentSnoc(history.GetOr([]), m.now, m.now, w);
    W.RecentSnoc(TimesOf(cs), m.now, m.now, w);
    if cs != [] { W.RecentLater(TimesOf(cs), Last(cs).now, m.now, w); }
  }

  lemma {:induction false} WindowFits(n: Nic, s: Session, m: LinkMsg, cs: seq<LinkMsg>)
    requires SessionFits(n, s, m.ifindex, cs) && m.oper.Some? && (cs != [] ==> Last(cs).now <= m.now)
    ensures WindowAfter(n, s, m) == W.Recent(TimesOf(cs + [m]), m.now, n.flapWindow)
  {
    WindowPushed(n.flapWindow, Find(s.last, m.ifindex), Find(s.history, m.ifindex), cs, m);
    assert Last(cs + [m]) == m;
  }

  lemma {:induction false} SessionStep(n: Nic, s: Session, m: LinkMsg, i: nat, cs: seq<LinkMsg>)
    requires SessionFits(n, s, i, cs) && (cs != [] ==> Last(cs).now <= m.now)
    ensures SessionFits(n, SessionAfter(n, s, m), i, if m.ifindex == i && Recorded(n, s, m) then cs + [m] else cs)
  {
    if m.ifindex == i && Recorded(n, s, m) {
      WindowPushed(n.flapWindow, Find(s.last, i), Find(s.history, i), cs, m);
    }
  }

  lemma {:induction false} LaterThanAll(n: Nic, ms: seq<LinkMsg>, i: nat, now: nat)
    requires InOrder(ms) && (ms != [] ==> Last(ms).now <= now)
    ensures Changes(n, ms, i) != [] ==> Last(Changes(n, ms, i)).now <= now
  {
    if ms != [] {
      var before := ms[..|ms| - 1];
      LaterThanAll(n, before, i, Last(ms).now);
    }
  }

  lemma {:induction false} SessionReadOff(n: Nic, ms: seq<LinkMsg>, i: nat)
    requires InOrder(ms)
    ensures SessionFits(n, SessionOf(n, ms), i, Changes(n, ms, i))
  {
    if ms != [] {
      var before := ms[..|ms| - 1];
      assert ms == before + [Last(ms)];
      SessionReadOff(n, before, i);
      LaterThanAll(n, before, i, Last(ms).now);
      SessionStep(n, SessionOf(n, before), Last(ms), i, Changes(n, before, i));
      ChangesSnoc(n, before, Last(ms), i);
    }
  }

  /** Interfaces keep their names, and no two share one. */
  ghost predicate Named(ms: seq<LinkMsg>, name: nat -> string) {
    && (forall m <- ms :: m.name.Some? ==> m.name.value == name(m.ifindex))
    && (forall i, j :: name(i) == name(j) ==> i == j)
  }

  lemma {:induction false} NamesHold(n: Nic, ms: seq<LinkMsg>, m: LinkMsg, name: nat -> string)
    requires Named(ms + [m], name) && Recorded(n, SessionOf(n, ms), m)
    ensures NamesAfter(SessionOf(n, ms), m)[m.ifindex] == name(m.ifindex)
  {
    HeardNow(n, ms, m, m.ifindex);
    NameOfNamed(ms + [m], m.ifindex, name);
  }

  lemma {:induction false} NameOfNamed(ms: seq<LinkMsg>, i: nat, name: nat -> string)
    requires Named(ms, name)
    ensures NameOf(ms, i).Some? ==> NameOf(ms, i).value == name(i)
  {
    if ms != [] {
      assert Last(ms) in ms;
      NameOfNamed(ms[..|ms| - 1], i, name);
    }
  }

  // ---- link_down ----

  /** Whose link_down key a call of the module is about. */
  lemma {:induction false} KeysApart(n: Nic, a: string, b: string)
    requires BarFree(n.hostId)
    ensures DownFp(n, a) == DownFp(n, b) <==> a == b
    ensures DownBuilder(n, a).Fp() == DownFp(n, a)
    ensures FlapBuilder(n, a).Fp() != DownFp(n, b)
  {
    assert PlainFields(n.hostId, NETWORK_NIC, "link_down") && PlainFields(n.hostId, NETWORK_NIC, "link_flapping");
    FingerprintInjective(n.hostId, NETWORK_NIC, Some(a), "link_down", n.hostId, NETWORK_NIC, Some(b), "link_down");
    FingerprintInjective(n.hostId, NETWORK_NIC, Some(a), "link_flapping", n.hostId, NETWORK_NIC, Some(b), "link_down");
  }

  /** A recorded transition of an interface, as its own link_down key sees it. */
  function DownAfter(before: bool, state: string, known: bool): bool {
    if state != "up" then true else if known then false else before
  }

  /** The alerts of a call sequence that close something. */
  function Resolves(es: seq<Alert>): seq<Alert> {
    if es == [] then [] else (if es[0].state == Resolved then [es[0]] else []) + Resolves(es[1..])
  }

  lemma {:induction false} ResolvesConcat(a: seq<Alert>, b: seq<Alert>)
    ensures Resolves(a + b) == Resolves(a) + Resolves(b)
  {
    if a == [] {
      assert a + b == b;
    } else {
      assert (a + b)[1..] == a[1..] + b;
      ResolvesConcat(a[1..], b);
      Regroup(if a[0].state == Resolved then [a[0]] else [], Resolves(a[1..]), Resolves(b));
    }
  }

  lemma {:induction false} LinkCallEffect(cfg: Config, n: Nic, t: Entries, iface: string, state: string, known: bool,
                                          m: LinkMsg, other: string)
    requires BarFree(n.hostId)
    ensures var cs := LinkCall(n, iface, state, known, m);
            && (DownFp(n, other) in Applied(cfg, t, cs) <==>
                  if other == iface then DownAfter(DownFp(n, other) in t, state, known) else DownFp(n, other) in t)
            && |Resolves(Emitted(cfg, t, cs))| == (if state == "up" && known && DownFp(n, iface) in t then 1 else 0)
            && (Resolves(Emitted(cfg, t, cs)) != [] ==>
                  && DownFp(n, iface) in t
                  && Resolves(Emitted(cfg, t, cs))[0].fingerprint == t[DownFp(n, iface)].template.Fp())
  {
    var cs := LinkCall(n, iface, state, known, m);
    KeysApart(n, iface, other);
    KeysApart(n, iface, iface);
    if cs != [] {
      AppliedOne(cfg, t, cs[0]);
      KeyStep(cfg, t, cs[0], DownFp(n, other));
      var e := Emitted(cfg, t, cs);
      if e != [] { assert e[1..] == []; }
    }
  }

  lemma {:induction false} FlapCallEffect(cfg: Config, n: Nic, t: Entries, iface: string, win: seq<nat>,
                                          m: LinkMsg, other: string)
    requires BarFree(n.hostId)
    ensures var cs := FlapCall(n, iface, win, m);
            && (DownFp(n, other) in Applied(cfg, t, cs) <==> DownFp(n, other) in t)
            && Resolves(Emitted(cfg, t, cs)) == []
  {
    var cs := FlapCall(n, iface, win, m);
    KeysApart(n, iface, other);
    if cs != [] {
      AppliedOne(cfg, t, cs[0]);
      KeyStep(cfg, t, cs[0], DownFp(n, other));
      var e := Emitted(cfg, t, cs);
      if e != [] { assert e[1..] == []; }
    }
  }

  /** One message, as the link_down key of interface `other` sees it. */
  lemma {:induction false} AsksEffect(cfg: Config, n: Nic, t: Entries, s: Session, m: LinkMsg, other: string)
    requires BarFree(n.hostId) && Recorded(n, s, m)
    ensures var iface, state, known := NamesAfter(s, m)[m.ifindex], m.oper.value, m.ifindex in s.last;
            var cs := Asks(n, s, m);
            && (DownFp(n, other) in Applied(cfg, t, cs) <==>
                  if other == iface then DownAfter(DownFp(n, other) in t, state, known) else DownFp(n, other) in t)
            && |Resolves(Emitted(cfg, t, cs))| == (if state == "up" && known && DownFp(n, iface) in t then 1 else 0)
            && (Resolves(Emitted(cfg, t, cs)) != [] ==>
                  && DownFp(n, iface) in t
                  && Resolves(Emitted(cfg, t, cs))[0].fingerprint == t[DownFp(n, iface)].template.Fp())
  {
    var iface, state, known := NamesAfter(s, m)[m.ifindex], m.oper.value, m.ifindex in s.last;
    var a, b := LinkCall(n, iface, state, known, m), FlapCall(n, iface, WindowAfter(n, s, m), m);
    AppliedConcat(cfg, t, a, b);
    EmittedConcat(cfg, t, a, b);
    LinkCallEffect(cfg, n, t, iface, state, known, m, other);
    FlapCallEffect(cfg, n, Applied(cfg, t, a), iface, WindowAfter(n, s, m), m, other);
    ResolvesConcat(Emitted(cfg, t, a), Emitted(cfg, Applied(cfg, t, a), b));
  }

  /** Should link_down be tracked, given the recorded messages of the session and whether it was tracked
      when the session began? */
  predicate LinkIsDown(before: bool, cs: seq<LinkMsg>)
    requires forall c <- cs :: c.oper.Some?
  {
    if cs == [] then before else Last(cs).oper.value != "up" || (before && |cs| == 1)
  }

  lemma {:induction false} DownReadOff(n: Nic, cfg: Config, t: Entries, ms: seq<LinkMsg>, i: nat, name: nat -> string)
    requires InOrder(ms) && Named(ms, name) && BarFree(n.hostId)
    ensures forall c <- Changes(n, ms, i) :: c.oper.Some?
    ensures var k := DownFp(n, name(i));
            k in Applied(cfg, t, CallsOf(n, ms)) <==> LinkIsDown(k in t, Changes(n, ms, i))
  {
    SessionReadOff(n, ms, i);
    if ms != [] {
      var before, m := ms[..|ms| - 1], Last(ms);
      var s := SessionOf(n, before);
      assert ms == before + [m];
      DownReadOff(n, cfg, t, before, i, name);
      SessionReadOff(n, before, i);
      ChangesSnoc(n, before, m, i);
      AppliedConcat(cfg, t, CallsOf(n, before), Asks(n, s, m));
      if Recorded(n, s, m) {
        NamesHold(n, before, m, name);
        AsksEffect(cfg, n, Applied(cfg, t, CallsOf(n, before)), s, m, name(i));
      }
    }
  }

  /** Nothing but "up" has been heard exactly when at most one message told something new, and that was "up". */
  lemma {:induction false} OnlyUp(n: Nic, ms: seq<LinkMsg>, i: nat)
    requires InOrder(ms)
    ensures AlwaysUp(n, ms, i) <==>
              Changes(n, ms, i) == [] || (|Changes(n, ms, i)| == 1 && Last(Changes(n, ms, i)).oper == Some("up"))
  {
    if ms != [] {
      var z := |ms| - 1;
      var before, m := ms[..z], Last(ms);
      assert ms == before + [m];
      OnlyUp(n, before, i);
      SessionReadOff(n, before, i);
      ChangesSnoc(n, before, m, i);
      HeardNow(n, before, m, i);
      forall k | 0 <= k < z ensures Heard(n, before, i, k) <==> Heard(n, ms, i, k) { HeardBefore(n, ms, z, i, k); }
      assert AlwaysUp(n, ms, i) <==> AlwaysUp(n, before, i) && (Heard(n, ms, i, z) ==> m.oper == Some("up"));
    }
  }

  ghost predicate AlwaysUp(n: Nic, ms: seq<LinkMsg>, i: nat) {
    forall k: nat :: k < |ms| && Heard(n, ms, i, k) ==> ms[k].oper == Some("up")
  }

  // ---- Other callers of the tracker ----

  /** The calls about one key. */
  function OnKey(cs: seq<Call>, k: string): seq<Call> {
    if cs == [] then []
    else
      var before := OnKey(cs[..|cs| - 1], k);
      if Last(cs).Key() == k then before + [Last(cs)] else before
  }

  /** The entry of a key depends on the calls about it alone. */
  lemma {:induction false} OnKeyDecides(cfg: Config, t: Entries, cs: seq<Call>, k: string)
    ensures Lookup(Applied(cfg, t, cs), k) == Lookup(Applied(cfg, t, OnKey(cs, k)), k)
  {
    if cs != [] {
      var before, c := cs[..|cs| - 1], Last(cs);
      OnKeyDecides(cfg, t, before, k);
      if c.Key() == k {
        AppliedConcat(cfg, t, OnKey(before, k), [c]);
        AppliedOne(cfg, Applied(cfg, t, OnKey(before, k)), c);
      }
    }
  }

  /** Among the calls `all` on the shared tracker, those about interface i's link_down are the session's. */
  ghost predicate SharesKey(n: Nic, ms: seq<LinkMsg>, all: seq<Call>, k: string) {
    OnKey(all, k) == OnKey(CallsOf(n, ms), k)
  }

  /** Whatever else calls the tracker meanwhile: within a session, link_down is tracked for an interface iff the last
      operstate heard of it is not "up" - or an alert that was there before is still waiting for a first state
      other than "up", for a session's first "up" resolves nothing. */
  lemma {:induction false} LinkDownTracked(n: Nic, cfg: Config, calls: seq<Call>, ms: seq<LinkMsg>, all: seq<Call>,
                                           i: nat, name: nat -> string)
    requires InOrder(ms) && Named(ms, name) && BarFree(n.hostId) && SharesKey(n, ms, all, DownFp(n, name(i)))
    ensures var k := DownFp(n, name(i));
            k in After(cfg, calls + all) <==> LastNotUp(n, ms, i) || (k in After(cfg, calls) && AlwaysUp(n, ms, i))
  {
    var t, k := After(cfg, calls), DownFp(n, name(i));
    AfterApplied(cfg, calls, all);
    OnKeyDecides(cfg, t, all, k);
    OnKeyDecides(cfg, t, CallsOf(n, ms), k);
    DownReadOff(n, cfg, t, ms, i, name);
    SessionReadOff(n, ms, i);
    LastAsHeard(n, ms, i);
    OnlyUp(n, ms, i);
  }

  /** From an empty tracker: tracked iff the last operstate heard is not "up". */
  lemma LinkDownFromEmpty(n: Nic, cfg: Config, ms: seq<LinkMsg>, all: seq<Call>, i: nat, name: nat -> string)
    requires InOrder(ms) && Named(ms, name) && BarFree(n.hostId) && SharesKey(n, ms, all, DownFp(n, name(i)))
    ensures DownFp(n, name(i)) in After(cfg, all) <==> LastNotUp(n, ms, i)
  {
    LinkDownTracked(n, cfg, [], ms, all, i, name);
    assert [] + all == all;
  }

  lemma Before(ms: seq<LinkMsg>, m: LinkMsg)
    requires InOrder(ms + [m])
    ensures InOrder(ms) && (ms != [] ==> Last(ms).now <= m.now)
  {
    var all := ms + [m];
    assert all[|ms|] == m;
    assert forall x :: 0 <= x < |ms| ==> all[x] == ms[x];
  }

  /** A message emits exactly one resolve, of that interface's link_down, if it tells "up" and the last state told
      before it was another; and none otherwise. */
  lemma {:induction false} ReturnResolvesOnce(n: Nic, cfg: Config, calls: seq<Call>, ms: seq<LinkMsg>, all: seq<Call>,
                                              m: LinkMsg, name: nat -> string)
    requires InOrder(ms + [m]) && Named(ms + [m], name) && BarFree(n.hostId)
    requires SharesKey(n, ms, all, DownFp(n, name(m.ifindex)))
    ensures var i, closed := m.ifindex, Resolves(Emitted(cfg, After(cfg, calls + all), Asks(n, SessionOf(n, ms), m)));
            var back := Heard(n, ms + [m], i, |ms|) && m.oper == Some("up") && LastNotUp(n, ms, i);
            && |closed| == (if back then 1 else 0)
            && (back ==> closed[0].fingerprint == DownFp(n, name(i)))
  {
    var s, i := SessionOf(n, ms), m.ifindex;
    Before(ms, m);
    HeardNow(n, ms, m, i);
    LastAsHeard(n, ms, i);
    LinkDownTracked(n, cfg, calls, ms, all, i, name);
    AlwaysCoherent(cfg, calls + all);
    if Recorded(n, s, m) {
      NamesHold(n, ms, m, name);
      AsksEffect(cfg, n, After(cfg, calls + all), s, m, name(i));
    }
  }

  lemma {:induction false} FirstMessage(n: Nic, m: LinkMsg)
    requires m.name.Some? && m.oper.Some? && !n.ignored(m.name.value)
    ensures LastHeard(n, [m], m.ifindex, 0)
  {
    assert [m][..1] == [m];
  }

  /** A link that goes down in one session and is up from the start of the next stays tracked: the
      session forgets, the tracker does not. */
  lemma StaleAfterRestart(n: Nic, cfg: Config, down: LinkMsg, up: LinkMsg, name: nat -> string)
    requires BarFree(n.hostId) && !n.ignored(name(up.ifindex)) && Named([down], name) && Named([up], name)
    requires down.ifindex == up.ifindex && down.name.Some? && up.name.Some?
    requires down.oper == Some("down") && up.oper == Some("up")
    ensures DownFp(n, name(up.ifindex)) in After(cfg, CallsOf(n, [down]) + CallsOf(n, [up]))
  {
    FirstDown(n, cfg, down, name);
    assert up in [up];
    FirstMessage(n, up);
    LinkDownTracked(n, cfg, CallsOf(n, [down]), [up], CallsOf(n, [up]), up.ifindex, name);
  }

  lemma FirstDown(n: Nic, cfg: Config, down: LinkMsg, name: nat -> string)
    requires BarFree(n.hostId) && !n.ignored(name(down.ifindex)) && Named([down], name)
    requires down.name.Some? && down.oper == Some("down")
    ensures DownFp(n, name(down.ifindex)) in After(cfg, CallsOf(n, [down]))
  {
    assert down in [down];
    FirstMessage(n, down);
    LinkDownFromEmpty(n, cfg, [down], CallsOf(n, [down]), down.ifindex, name);
  }

  // ---- Everything that a session asks ----

  lemma {:induction false} WindowCounted(n: Nic, ms: seq<LinkMsg>, m: LinkMsg)
    requires InOrder(ms + [m]) && Recorded(n, SessionOf(n, ms), m)
    ensures |WindowAfter(n, SessionOf(n, ms), m)| == |TurnedWithin(n, ms + [m], m.ifindex, m.now, n.flapWindow)|
  {
    var i := m.ifindex;
    Before(ms, m);
    SessionReadOff(n, ms, i);
    LaterThanAll(n, ms, i, m.now);
    WindowFits(n, SessionOf(n, ms), m, Changes(n, ms, i));
    ChangesSnoc(n, ms, m, i);
    ChangesCounted(n, ms + [m], i, m.now, n.flapWindow);
  }

  /** The tracker calls of a message, whatever came before it in the session: none unless it tells a new operstate.
      A state other than "up" is observed as link_down, "up" resolves it unless it is the first state heard; and
      link_flapping is observed when the changes of the interface in the closed window that ends with this one
      reach the threshold (as u32). */
  lemma {:induction false} AskedExactly(n: Nic, ms: seq<LinkMsg>, m: LinkMsg)
    requires InOrder(ms + [m])
    ensures var all, i, asks := ms + [m], m.ifindex, Asks(n, SessionOf(n, ms), m);
            if !Turned(n, all, i, |ms|) then asks == []
            else
              var iface := NameOf(all, i);
              asks == (if m.oper != Some("up") then
                         [Observe(Builder(n.host, n.hostId, "network_nic", "link_down", Warning, iface), m.now, m.wall)]
                       else if exists j: nat :: LastHeard(n, ms, i, j) then
                         [ForceResolve(Fingerprint(n.hostId, "network_nic", iface, "link_down"), m.now, m.wall)]
                       else [])
                      + (if |TurnedWithin(n, all, i, m.now, n.flapWindow)| % 0x1_0000_0000 >= n.flapThreshold then
                           [Observe(Builder(n.host, n.hostId, "network_nic", "link_flapping", Warning, iface),
                                    m.now, m.wall)]
                         else [])
  {
    var s, i := SessionOf(n, ms), m.ifindex;
    RecordedExactly(n, ms, m);
    if Recorded(n, s, m) {
      HeardNow(n, ms, m, i);
      LastAsHeard(n, ms, i);
      WindowCounted(n, ms, m);
    }
  }

  predicate ObservesFlapping(cs: seq<Call>) { exists c <- cs :: c.Observe? && c.b.metric == "link_flapping" }

  /** link_flapping is observed on a message iff it tells a new operstate and the changes of its interface in the
      closed window that ends with it reach the threshold (as u32). */
  lemma {:induction false} FlappingExactly(n: Nic, ms: seq<LinkMsg>, m: LinkMsg)
    requires InOrder(ms + [m])
    ensures var all := ms + [m];
            ObservesFlapping(Asks(n, SessionOf(n, ms), m)) <==>
              && Turned(n, all, m.ifindex, |ms|)
              && |TurnedWithin(n, all, m.ifindex, m.now, n.flapWindow)| % 0x1_0000_0000 >= n.flapThreshold
  {
    var s := SessionOf(n, ms);
    RecordedExactly(n, ms, m);
    if Recorded(n, s, m) {
      WindowCounted(n, ms, m);
    }
  }

}
