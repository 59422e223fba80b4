/** The alert board of one browser: `handle` in gui/app.js. */
module Gui {
  import opened Basics
  import opened Shared

  datatype Envelope = AlertEnv(a: Alert) | SnapshotEnv(alerts: seq<Alert>)

  type Board = map<string, Alert>

  /** `n || 1` */
  function OrOne(n: nat): nat { if n == 0 then 1 else n }

  function Max(a: nat, b: nat): nat { if a >= b then a else b }

  /** The alert as it goes on the board: a repeat keeps the first_seen and the higher count. */
  function Merged(board: Board, a: Alert): Alert {
    if a.fingerprint in board then
      var shown := board[a.fingerprint];
      a.(firstSeen := shown.firstSeen, occurrences := Max(OrOne(a.occurrences), OrOne(shown.occurrences)))
    else a
  }

  function SetAll(board: Board, alerts: seq<Alert>): Board {
    if alerts == [] then board
    else
      var last := alerts[|alerts| - 1];
      SetAll(board, alerts[..|alerts| - 1])[last.fingerprint := last]
  }

  function Handle(board: Board, e: Envelope): Board {
    match e
    case SnapshotEnv(alerts) => SetAll(map[], alerts)
    case AlertEnv(a) =>
      if a.state == Resolved then board - {a.fingerprint} else board[a.fingerprint := Merged(board, a)]
  }

  function HandleAll(es: seq<Envelope>): Board {
    if es == [] then map[] else Handle(HandleAll(es[..|es| - 1]), es[|es| - 1])
  }

  class Page {
    var alerts: Board
    ghost var received: seq<Envelope>

    ghost predicate Valid()
      reads this
    {
      alerts == HandleAll(received)
    }

    constructor ()
      ensures Valid() && received == []
    {
      alerts, received := map[], [];
    }

    method OnMessage(e: Envelope)
      requires Valid()
      modifies this
      ensures Valid() && received == old(received) + [e]
    {
      match e {
        case SnapshotEnv(list) => OnSnapshot(list);
        case AlertEnv(a) => OnAlert(a);
      }
      received := received + [e];
    }

    method OnSnapshot(list: seq<Alert>)
      modifies this`alerts
      ensures alerts == SetAll(map[], list)
    {
      alerts := map[];
      for i := 0 to |list|
        invariant alerts == SetAll(map[], list[..i])
      {
        assert list[..i + 1][..i] == list[..i];
        alerts := alerts[list[i].fingerprint := list[i]];
      }
      assert list[..|list|] == list;
    }

    method OnAlert(a: Alert)
      modifies this`alerts
      ensures alerts == Handle(old(alerts), AlertEnv(a))
    {
      if a.state == Resolved {
        alerts := alerts - {a.fingerprint};
      } else {
        var env := a;
        if env.fingerprint in alerts {
          var existing := alerts[env.fingerprint];
          env := env.(firstSeen := existing.firstSeen);
          env := env.(occurrences := Max(OrOne(env.occurrences), OrOne(existing.occurrences)));
        }
        alerts := alerts[env.fingerprint := env];
      }
    }
  }

  // ---- Reading the messages, without looking at the board ----

  /** The last alert of a list with a given fingerprint. */
  function LastOf(alerts: seq<Alert>, fp: string): Option<Alert> {
    if alerts == [] then None
    else if alerts[|alerts| - 1].fingerprint == fp then Some(alerts[|alerts| - 1])
    else LastOf(alerts[..|alerts| - 1], fp)
  }

  /** The alerts of the current firing episode of a fingerprint, as this page has seen it. */
  function Episode(es: seq<Envelope>, fp: string): seq<Alert> {
    if es == [] then []
    else
      var before := Episode(es[..|es| - 1], fp);
      match es[|es| - 1]
      case SnapshotEnv(alerts) =>
        var a := LastOf(alerts, fp);
        if a.Some? then [a.value] else []
      case AlertEnv(a) =>
        if a.fingerprint != fp then before
        else if a.state == Resolved then []
        else before + [a]
  }

  /** Highest count in a list of alerts, a zero counting as one. */
  function Peak(alerts: seq<Alert>): nat {
    if alerts == [] then 0 else Max(Peak(alerts[..|alerts| - 1]), OrOne(alerts[|alerts| - 1].occurrences))
  }

  lemma {:induction false} SetAllLooksUp(alerts: seq<Alert>, fp: string)
    ensures fp in SetAll(map[], alerts) <==> LastOf(alerts, fp).Some?
    ensures fp in SetAll(map[], alerts) ==> SetAll(map[], alerts)[fp] == LastOf(alerts, fp).value
  {
    if alerts != [] { SetAllLooksUp(alerts[..|alerts| - 1], fp); }
  }

  /** The board shows a fingerprint iff its episode is open; it shows the last alert of the episode with
      the first_seen of its first, and the highest count of the episode. */
  ghost predicate Shows(board: Board, fp: string, ep: seq<Alert>) {
    && (fp in board <==> ep != [])
    && (ep != [] ==>
          && board[fp] == ep[|ep| - 1].(firstSeen := ep[0].firstSeen, occurrences := board[fp].occurrences)
          && OrOne(board[fp].occurrences) == Peak(ep))
  }

  lemma {:induction false} BoardShowsEpisodes(es: seq<Envelope>, fp: string)
    ensures Shows(HandleAll(es), fp, Episode(es, fp))
  {
    if es != [] {
      var before, e := es[..|es| - 1], es[|es| - 1];
      BoardShowsEpisodes(before, fp);
      match e
      case SnapshotEnv(alerts) =>
        SetAllLooksUp(alerts, fp);
      case AlertEnv(a) =>
        var ep := Episode(before, fp);
        if a.fingerprint == fp && a.state == Firing { assert (ep + [a])[..|ep|] == ep; }
    }
  }

  /** Within an episode the count on the board never falls and first_seen never moves. */
  lemma {:induction false} CountNeverFalls(es: seq<Envelope>, a: Alert)
    requires a.state == Firing && Episode(es, a.fingerprint) != []
    ensures var fp, b, c := a.fingerprint, HandleAll(es), HandleAll(es + [AlertEnv(a)]);
            && fp in b && fp in c
            && c[fp].occurrences >= b[fp].occurrences && c[fp].firstSeen == b[fp].firstSeen
  {
    BoardShowsEpisodes(es, a.fingerprint);
    assert (es + [AlertEnv(a)])[..|es|] == es;
  }

  // ---- Presence alone, for the replica ----

  /** Is a fingerprint on the board after more messages, given whether it was before. */
  function Present(before: bool, es: seq<Envelope>, fp: string): bool
    decreases |es|
  {
    if es == [] then before else Present(PresentAfter(before, es[0], fp), es[1..], fp)
  }

  function PresentAfter(before: bool, e: Envelope, fp: string): bool {
    match e
    case SnapshotEnv(alerts) => LastOf(alerts, fp).Some?
    case AlertEnv(a) => if a.fingerprint == fp then a.state == Firing else before
  }

  lemma PresenceHandled(board: Board, e: Envelope, fp: string)
    ensures fp in Handle(board, e) <==> PresentAfter(fp in board, e, fp)
  {
    if e.SnapshotEnv? { SetAllLooksUp(e.alerts, fp); }
  }

  lemma {:induction false} PresentSnoc(before: bool, es: seq<Envelope>, e: Envelope, fp: string)
    ensures Present(before, es + [e], fp) == PresentAfter(Present(before, es, fp), e, fp)
    decreases |es|
  {
    if es == [] {
      assert es + [e] == [e];
    } else {
      assert (es + [e])[1..] == es[1..] + [e];
      PresentSnoc(PresentAfter(before, es[0], fp), es[1..], e, fp);
    }
  }

  /** What the last message that bears on a fingerprint says of it. */
  function LastWord(es: seq<Envelope>, fp: string): Option<bool> {
    if es == [] then None
    else
      match es[|es| - 1]
      case SnapshotEnv(alerts) => Some(LastOf(alerts, fp).Some?)
      case AlertEnv(a) => if a.fingerprint == fp then Some(a.state == Firing) else LastWord(es[..|es| - 1], fp)
  }

  lemma {:induction false} LastWordDecides(before: bool, es: seq<Envelope>, fp: string)
    ensures Present(before, es, fp) == LastWord(es, fp).GetOr(before)
  {
    if es != [] {
      var most, e := es[..|es| - 1], es[|es| - 1];
      assert es == most + [e];
      PresentSnoc(before, most, e, fp);
      LastWordDecides(before, most, fp);
    }
  }

  lemma PresentOne(before: bool, e: Envelope, fp: string)
    ensures Present(before, [e], fp) == PresentAfter(before, e, fp)
  {
    assert [e][1..] == [];
  }
}
