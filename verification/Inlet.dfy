/** Which temperature row is the inlet: `inlet_sensor_priority` and `read_inlet_temp` of
    agent/src/modules/thermal.rs. */
module Inlet {
  import opened Basics

  /** The two patterns, as predicates on a sensor name in lower case. */
  datatype Patterns = Patterns(numberedInlet: string -> bool, psu: string -> bool)

  predicate Contains(s: string, part: string) {
    part <= s || (s != "" && Contains(s[1..], part))
  }

  predicate At(s: string, part: string, i: nat) { i <= |s| && part <= s[i..] }

  lemma {:induction false} ContainsSomewhere(s: string, part: string)
    ensures Contains(s, part) <==> exists i: nat :: At(s, part, i)
  {
    if part <= s {
      assert At(s, part, 0);
    } else if s != "" {
      ContainsSomewhere(s[1..], part);
      if i: nat :| At(s[1..], part, i) { assert At(s, part, i + 1); }
      forall i: nat | At(s, part, i) ensures At(s[1..], part, i - 1) {}
    }
  }

  /** A name that contains a text contains its beginnings. */
  lemma {:induction false} PartOf(n: string, whole: string, part: string)
    requires part <= whole
    ensures Contains(n, whole) ==> Contains(n, part)
  {
    if n != "" { PartOf(n[1..], whole, part); }
  }

  lemma {:induction false} DashInlet(n: string)
    ensures Contains(n, "-inlet") ==> Contains(n, "inlet")
  {
    if "-inlet" <= n {
      assert "inlet" <= n[1..];
    } else if n != "" {
      DashInlet(n[1..]);
    }
  }

  /** A row's priority, and whether it is a power supply's inlet. */
  datatype Rank = Rank(prio: int, psu: bool)

  /** Names of the two highest tiers, and of the third. */
  predicate AmbientLike(n: string) { Contains(n, "ambient") || Contains(n, "room") || Contains(n, "air inlet") }

  predicate ChassisInlet(p: Patterns, n: string) {
    Contains(n, "inlet temp") || Contains(n, "-inlet") || p.numberedInlet(n)
  }

  function Priority(p: Patterns, n: string): (r: Option<Rank>)
    ensures r.Some? && r.value.prio == 1000 <==> Contains(n, "ambient")
    ensures r.Some? && r.value.prio >= 900 <==> AmbientLike(n)
    ensures r.Some? && r.value.prio >= 850 <==> AmbientLike(n) || (ChassisInlet(p, n) && !p.psu(n))
    ensures r.Some? && r.value.prio >= 300
       <==> AmbientLike(n) || ((ChassisInlet(p, n) || Contains(n, "inlet")) && !p.psu(n))
    ensures r.Some? <==> AmbientLike(n) || Contains(n, "inlet") || (p.numberedInlet(n) && !p.psu(n))
    ensures r.Some? ==> r.value.prio in {1000, 900, 850, 300, 100} && (r.value.psu <==> r.value.prio == 100)
  {
    PartOf(n, "ambient temp", "ambient");
    PartOf(n, "ambient temperature", "ambient");
    PartOf(n, "inlet temp", "inlet");
    DashInlet(n);
    if Contains(n, "ambient") || Contains(n, "ambient temp") || Contains(n, "ambient temperature") then
      Some(Rank(1000, false))
    else if Contains(n, "room") || Contains(n, "air inlet") then Some(Rank(900, false))
    else if (Contains(n, "inlet temp") || Contains(n, "-inlet") || p.numberedInlet(n)) && !p.psu(n) then
      Some(Rank(850, false))
    else if Contains(n, "inlet") && p.psu(n) then Some(Rank(100, true))
    else if Contains(n, "inlet") then Some(Rank(300, false))
    else None
  }

  /** A line of the sensor listing: the name in lower case, and every reading in degrees, in order. */
  datatype Line = Line(name: string, degrees: seq<real>)

  datatype Row = Row(rank: Rank, temp: real)

  predicate Plausible(t: real) { -5.0 <= t < 125.0 }

  /** The reading of a line: t, at place k, is plausible, and nothing after it is. */
  predicate ReadAt(degrees: seq<real>, k: nat, t: real) {
    && k < |degrees| && degrees[k] == t && -5.0 <= t < 125.0
    && forall i :: k < i < |degrees| ==> degrees[i] < -5.0 || 125.0 <= degrees[i]
  }

  /** The last plausible reading of a line. */
  function Reading(degrees: seq<real>): (r: Option<real>)
    ensures r.None? <==> forall i :: 0 <= i < |degrees| ==> degrees[i] < -5.0 || 125.0 <= degrees[i]
    ensures r.Some? ==> exists k: nat :: ReadAt(degrees, k, r.value)
  {
    if degrees == [] then None
    else
      var most, last := degrees[..|degrees| - 1], degrees[|degrees| - 1];
      assert degrees == most + [last];
      if Plausible(last) then
        assert ReadAt(degrees, |most|, last);
        Some(last)
      else
        var r := Reading(most);
        assert forall k: nat :: r.Some? && ReadAt(most, k, r.value) ==> ReadAt(degrees, k, r.value);
        r
  }

  predicate Usable(p: Patterns, l: Line) { Priority(p, l.name).Some? && Reading(l.degrees).Some? }

  function RowOf(p: Patterns, l: Line): Row
    requires Usable(p, l)
  {
    Row(Priority(p, l.name).value, Reading(l.degrees).value)
  }

  function Rows(p: Patterns, lines: seq<Line>): seq<Row> {
    if lines == [] then []
    else
      var before, l := Rows(p, lines[..|lines| - 1]), lines[|lines| - 1];
      if Usable(p, l) then before + [RowOf(p, l)] else before
  }

  // ---- sort_by_key(Reverse(prio)) ----

  /** A row goes behind all rows of at least its priority. */
  function Placed(sorted: seq<Row>, r: Row): seq<Row> {
    if sorted == [] then [r]
    else if sorted[|sorted| - 1].rank.prio >= r.rank.prio then sorted + [r]
    else Placed(sorted[..|sorted| - 1], r) + [sorted[|sorted| - 1]]
  }

  function Sorted(rows: seq<Row>): seq<Row> {
    if rows == [] then [] else Placed(Sorted(rows[..|rows| - 1]), rows[|rows| - 1])
  }

  ghost predicate Descending(rows: seq<Row>) {
    forall i, j :: 0 <= i < j < |rows| ==> rows[i].rank.prio >= rows[j].rank.prio
  }

  /** The rows of one priority, in order. */
  function OfPrio(rows: seq<Row>, prio: int): seq<Row> {
    if rows == [] then []
    else
      var before, r := OfPrio(rows[..|rows| - 1], prio), rows[|rows| - 1];
      if r.rank.prio == prio then before + [r] else before
  }

  lemma DescendingSnoc(rows: seq<Row>, r: Row)
    requires Descending(rows) && forall x <- rows :: x.rank.prio >= r.rank.prio
    ensures Descending(rows + [r])
  {
  }

  lemma {:induction false} PlacedDescends(sorted: seq<Row>, r: Row)
    requires Descending(sorted)
    ensures Descending(Placed(sorted, r)) && forall x <- Placed(sorted, r) :: x in sorted || x == r
  {
    if sorted != [] {
      var most, last := sorted[..|sorted| - 1], sorted[|sorted| - 1];
      if last.rank.prio >= r.rank.prio {
        DescendingSnoc(sorted, r);
      } else {
        PlacedDescends(most, r);
        DescendingSnoc(Placed(most, r), last);
      }
    }
  }

  lemma {:induction false} PlacedKeepsOrder(sorted: seq<Row>, r: Row, prio: int)
    ensures OfPrio(Placed(sorted, r), prio)
         == if r.rank.prio == prio then OfPrio(sorted, prio) + [r] else OfPrio(sorted, prio)
  {
    if sorted != [] && sorted[|sorted| - 1].rank.prio < r.rank.prio {
      PlacedKeepsOrder(sorted[..|sorted| - 1], r, prio);
    }
  }

  /** The sort is one: descending, and stable within every priority. */
  lemma {:induction false} SortedIsStable(rows: seq<Row>, prio: int)
    ensures Descending(Sorted(rows)) && OfPrio(Sorted(rows), prio) == OfPrio(rows, prio)
  {
    if rows != [] {
      SortedIsStable(rows[..|rows| - 1], prio);
      PlacedDescends(Sorted(rows[..|rows| - 1]), rows[|rows| - 1]);
      PlacedKeepsOrder(Sorted(rows[..|rows| - 1]), rows[|rows| - 1], prio);
    }
  }

  // ---- The earliest of the highest ----

  ghost predicate EarliestOfHighest(rows: seq<Row>, k: nat) {
    && k < |rows|
    && (forall i :: 0 <= i < |rows| ==> rows[i].rank.prio <= rows[k].rank.prio)
    && (forall i :: 0 <= i < k ==> rows[i].rank.prio < rows[k].rank.prio)
  }

  lemma {:induction false} OfPrioHead(rows: seq<Row>, prio: int)
    ensures OfPrio(rows, prio) == [] <==> forall i :: 0 <= i < |rows| ==> rows[i].rank.prio != prio
    ensures OfPrio(rows, prio) != [] ==>
              exists k :: 0 <= k < |rows| && rows[k] == OfPrio(rows, prio)[0] && rows[k].rank.prio == prio
                          && forall i :: 0 <= i < k ==> rows[i].rank.prio != prio
  {
    if rows != [] {
      var most, last := rows[..|rows| - 1], rows[|rows| - 1];
      OfPrioHead(most, prio);
      if OfPrio(most, prio) != [] {
        var k :| 0 <= k < |most| && most[k] == OfPrio(most, prio)[0] && most[k].rank.prio == prio
                 && forall i :: 0 <= i < k ==> most[i].rank.prio != prio;
        assert rows[k] == most[k];
      } else if last.rank.prio == prio {
        assert rows[|most|] == last;
      }
    }
  }

  /** The first row after sorting is the earliest of those of highest priority. */
  lemma {:induction false} SortedHead(rows: seq<Row>) returns (k: nat)
    requires rows != []
    ensures Sorted(rows) != [] && EarliestOfHighest(rows, k) && rows[k] == Sorted(rows)[0]
  {
    var s := Sorted(rows);
    var top := s[0].rank.prio;
    SortedIsStable(rows, top);
    FirstOfItsPrio(s);
    OfPrioHead(rows, top);
    k :| 0 <= k < |rows| && rows[k] == OfPrio(rows, top)[0] && rows[k].rank.prio == top
         && forall i :: 0 <= i < k ==> rows[i].rank.prio != top;
    forall i | 0 <= i < |rows| ensures rows[i].rank.prio <= top {
      var prio := rows[i].rank.prio;
      SortedIsStable(rows, prio);
      OfPrioHead(rows, prio);
      OfPrioHead(s, prio);
    }
  }

  lemma {:induction false} FirstOfItsPrio(s: seq<Row>)
    requires s != []
    ensures OfPrio(s, s[0].rank.prio) != [] && OfPrio(s, s[0].rank.prio)[0] == s[0]
  {
    if |s| > 1 {
      FirstOfItsPrio(s[..|s| - 1]);
    } else {
      assert OfPrio(s[..0], s[0].rank.prio) == [];
    }
  }

  // ---- The listing ----

  predicate Outranks(p: Patterns, a: Line, b: Line)
    requires Usable(p, a) && Usable(p, b)
  {
    RowOf(p, a).rank.prio > RowOf(p, b).rank.prio
  }

  /** Line k is usable, no usable line outranks it, and it outranks every usable line before it. */
  ghost predicate Best(p: Patterns, lines: seq<Line>, k: nat) {
    && k < |lines| && Usable(p, lines[k])
    && (forall i :: 0 <= i < |lines| && Usable(p, lines[i]) ==> !Outranks(p, lines[i], lines[k]))
    && (forall i :: 0 <= i < k && Usable(p, lines[i]) ==> Outranks(p, lines[k], lines[i]))
  }

  lemma {:induction false} LineHasRow(p: Patterns, lines: seq<Line>, i: nat) returns (j: nat)
    requires i < |lines| && Usable(p, lines[i])
    ensures j < |Rows(p, lines)| && Rows(p, lines)[j] == RowOf(p, lines[i])
  {
    var n := |lines| - 1;
    if i < n { j := LineHasRow(p, lines[..n], i); } else { j := |Rows(p, lines)| - 1; }
  }

  lemma {:induction false} BestNow(p: Patterns, lines: seq<Line>, l: Line)
    requires Usable(p, l) && forall row <- Rows(p, lines) :: row.rank.prio < RowOf(p, l).rank.prio
    ensures Best(p, lines + [l], |lines|)
  {
    var all := lines + [l];
    forall i | 0 <= i < |lines| && Usable(p, all[i]) ensures Outranks(p, l, all[i]) {
      assert all[i] == lines[i];
      var j := LineHasRow(p, lines, i);
      assert Rows(p, lines)[j] in Rows(p, lines);
    }
  }

  lemma {:induction false} EarliestBefore(rows: seq<Row>, row: Row, r: nat)
    requires EarliestOfHighest(rows + [row], r)
    ensures r < |rows| ==> EarliestOfHighest(rows, r) && row.rank.prio <= rows[r].rank.prio
    ensures r >= |rows| ==> r == |rows| && forall x <- rows :: x.rank.prio < row.rank.prio
  {
    var all := rows + [row];
    assert all[|rows|] == row;
    assert forall i :: 0 <= i < |rows| ==> rows[i] == all[i];
  }

  lemma {:induction false} BestRow(p: Patterns, lines: seq<Line>, r: nat) returns (k: nat)
    requires EarliestOfHighest(Rows(p, lines), r)
    ensures Best(p, lines, k) && RowOf(p, lines[k]) == Rows(p, lines)[r]
  {
    var n := |lines| - 1;
    var before, l, rows := lines[..n], lines[n], Rows(p, lines[..n]);
    assert lines == before + [l];
    if Usable(p, l) { EarliestBefore(rows, RowOf(p, l), r); }
    if r < |rows| {
      k := BestRow(p, before, r);
    } else {
      k := n;
      BestNow(p, before, l);
    }
  }

  lemma {:induction false} NoRows(p: Patterns, lines: seq<Line>)
    ensures Rows(p, lines) == [] <==> forall i :: 0 <= i < |lines| ==> !Usable(p, lines[i])
  {
    if i :| 0 <= i < |lines| && Usable(p, lines[i]) { var j := LineHasRow(p, lines, i); }
    if Rows(p, lines) != [] {
      var r := SortedHead(Rows(p, lines));
      var k := BestRow(p, lines, r);
    }
  }

  /** The selection loop of `read_inlet_temp`, over the listing. */
  method ReadInletTemp(p: Patterns, lines: seq<Line>) returns (r: Option<real>)
    ensures r.None? <==> forall i :: 0 <= i < |lines| ==> !Usable(p, lines[i])
    ensures r.Some? ==> exists k: nat :: Best(p, lines, k) && Reading(lines[k].degrees) == r
  {
    var rows: seq<Row> := [];
    for i := 0 to |lines|
      invariant rows == Rows(p, lines[..i])
    {
      assert lines[..i + 1][..i] == lines[..i];
      var rank, temp := Priority(p, lines[i].name), Reading(lines[i].degrees);
      if rank.Some? && temp.Some? { rows := rows + [Row(rank.value, temp.value)]; }
    }
    assert lines[..|lines|] == lines;
    NoRows(p, lines);
    if rows == [] { return None; }
    ghost var k := SortedHead(rows);
    k := BestRow(p, lines, k);
    SortedIsStable(rows, 0);
    rows := Sorted(rows);
    var trueAmbient := exists row <- rows :: row.rank.prio >= 850;
    for i := 0 to |rows|
      invariant i > 0 ==> rows[0].rank.prio < 300
    {
      if rows[i].rank.prio >= 850 { return Some(rows[i].temp); }
      if trueAmbient && rows[i].rank.psu { continue; }
      if rows[i].rank.prio >= 300 { return Some(rows[i].temp); }
    }
    r := Some(rows[0].temp);
  }

  /** The line chosen is a power supply's inlet exactly when every usable line is one. */
  lemma {:induction false} PsuOnlyIfNothingElse(p: Patterns, lines: seq<Line>, k: nat)
    requires Best(p, lines, k)
    ensures RowOf(p, lines[k]).rank.psu
       <==> forall i :: 0 <= i < |lines| && Usable(p, lines[i]) ==> RowOf(p, lines[i]).rank.psu
  {
    forall i | 0 <= i < |lines| && Usable(p, lines[i]) && RowOf(p, lines[k]).rank.psu
      ensures RowOf(p, lines[i]).rank.psu
    {
      assert !Outranks(p, lines[i], lines[k]);
    }
  }
}
