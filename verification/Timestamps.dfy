/** UTC timestamps as `to_rfc3339` writes them, and why comparing their text compares the instants:
    the `ts` column of collector/src/store.rs. */
module Timestamps {
  import opened Basics

  // ---- Text order ----

  /** Byte-wise order of text, as SQLite compares TEXT by default: a proper prefix comes first. */
  predicate Less(a: string, b: string) {
    b != [] && (a == [] || a[0] < b[0] || (a[0] == b[0] && Less(a[1..], b[1..])))
  }

  /** Texts that begin with parts of equal length are ordered by these parts, then by the rest. */
  lemma {:induction false} LessThen(x: string, y: string, a: string, b: string)
    requires |x| == |y|
    ensures Less(x + a, y + b) <==> Less(x, y) || (x == y && Less(a, b))
  {
    if x == [] {
      assert x + a == a && y + b == b;
    } else {
      assert (x + a)[1..] == x[1..] + a && (y + b)[1..] == y[1..] + b;
      LessThen(x[1..], y[1..], a, b);
      assert x == [x[0]] + x[1..] && y == [y[0]] + y[1..];
    }
  }

  // ---- Numbers of fixed width ----

  function Pow10(w: nat): nat { if w == 0 then 1 else 10 * Pow10(w - 1) }

  function Digit(d: nat): char
    requires d < 10
  {
    '0' + d as char
  }

  /** The last w decimal digits of n, with leading zeros. */
  function Digits(n: nat, w: nat): (s: string)
    ensures |s| == w
  {
    if w == 0 then "" else Digits(n / 10, w - 1) + [Digit(n % 10)]
  }

  lemma {:induction false} DigitsOrder(m: nat, n: nat, w: nat)
    requires m < Pow10(w) && n < Pow10(w)
    ensures Less(Digits(m, w), Digits(n, w)) <==> m < n
    ensures Digits(m, w) == Digits(n, w) <==> m == n
  {
    if w > 0 {
      DigitsOrder(m / 10, n / 10, w - 1);
      var x, y := Digits(m / 10, w - 1), Digits(n / 10, w - 1);
      var c, d := [Digit(m % 10)], [Digit(n % 10)];
      LessThen(x, y, c, d);
      assert c[1..] == [] && d[1..] == [];
      assert (x + c)[..w - 1] == x && (y + d)[..w - 1] == y && (x + c)[w - 1] == c[0] && (y + d)[w - 1] == d[0];
    }
  }

  lemma Places(n: nat)
    ensures n / 10 / 10 == n / 100 && n / 100 / 10 == n / 1000
    ensures n % 1000 % 10 == n % 10 && n % 1000 / 10 % 10 == n / 10 % 10 && n % 1000 / 10 / 10 == n / 100 % 10
  {
  }

  lemma ThreeDigits(n: nat, w: nat)
    ensures var three := [Digit(n / 10 / 10 % 10), Digit(n / 10 % 10), Digit(n % 10)];
            Digits(n, w + 3) == Digits(n / 10 / 10 / 10, w) + three
  {
    var a, b, c := n / 10, n / 10 / 10, n / 10 / 10 / 10;
    assert Digits(n, w + 3) == Digits(a, w + 2) + [Digit(n % 10)];
    assert Digits(a, w + 2) == Digits(b, w + 1) + [Digit(a % 10)];
    assert Digits(b, w + 1) == Digits(c, w) + [Digit(b % 10)];
  }

  lemma {:induction false} DigitsSplit(n: nat, w: nat)
    ensures Digits(n, w + 3) == Digits(n / 1000, w) + Digits(n % 1000, 3)
  {
    ThreeDigits(n, w);
    ThreeDigits(n % 1000, 0);
    Places(n);
  }

  // ---- Instants ----

  /** A UTC instant, field by field, to the nanosecond. */
  datatype Instant = Instant(date: (nat, nat, nat), clock: (nat, nat, nat), nanos: nat)

  predicate LeapYear(y: nat) { y % 4 == 0 && (y % 100 != 0 || y % 400 == 0) }

  function DaysIn(y: nat, month: nat): nat {
    if month == 2 then if LeapYear(y) then 29 else 28
    else if month == 4 || month == 6 || month == 9 || month == 11 then 30
    else 31
  }

  predicate Valid(t: Instant) {
    && t.date.0 <= 9999 && 1 <= t.date.1 <= 12 && 1 <= t.date.2 <= DaysIn(t.date.0, t.date.1)
    && t.clock.0 < 24 && t.clock.1 < 60 && t.clock.2 < 60 && t.nanos < 1_000_000_000
  }

  /** Days of a year before a month, and days before a year since the start of year 0. */
  function DaysBeforeMonth(y: nat, month: nat): nat {
    if month <= 1 then 0 else DaysBeforeMonth(y, month - 1) + DaysIn(y, month - 1)
  }

  function DaysBeforeYear(y: nat): nat {
    if y == 0 then 0 else DaysBeforeYear(y - 1) + DaysBeforeMonth(y - 1, 13)
  }

  function DayNumber(d: (nat, nat, nat)): int { DaysBeforeYear(d.0) + DaysBeforeMonth(d.0, d.1) + d.2 - 1 }

  /** Chronology: nanoseconds since the start of year 0. */
  function Nanos(t: Instant): int {
    (DayNumber(t.date) * 86400 + t.clock.0 * 3600 + t.clock.1 * 60 + t.clock.2) * 1_000_000_000 + t.nanos
  }

  predicate Before3(a: (nat, nat, nat), b: (nat, nat, nat)) {
    a.0 < b.0 || (a.0 == b.0 && (a.1 < b.1 || (a.1 == b.1 && a.2 < b.2)))
  }

  predicate FieldsBefore(a: Instant, b: Instant) {
    || Before3(a.date, b.date)
    || (a.date == b.date && (Before3(a.clock, b.clock) || (a.clock == b.clock && a.nanos < b.nanos)))
  }

  lemma {:induction false} MonthsGrow(y: nat, m: nat, n: nat)
    requires 1 <= m < n
    ensures DaysBeforeMonth(y, m) + DaysIn(y, m) <= DaysBeforeMonth(y, n)
  {
    if m < n - 1 { MonthsGrow(y, m, n - 1); }
  }

  lemma {:induction false} YearsGrow(y: nat, z: nat)
    requires y < z
    ensures DaysBeforeYear(y) + DaysBeforeMonth(y, 13) <= DaysBeforeYear(z)
  {
    if y < z - 1 { YearsGrow(y, z - 1); }
  }

  lemma {:induction false} DatesInOrder(a: Instant, b: Instant)
    requires Valid(a) && Valid(b) && Before3(a.date, b.date)
    ensures DayNumber(a.date) < DayNumber(b.date)
  {
    var (y, m, d) := a.date;
    MonthsGrow(y, m, 13);
    if y < b.date.0 {
      YearsGrow(y, b.date.0);
    } else if m < b.date.1 {
      MonthsGrow(y, m, b.date.1);
    }
  }

  lemma {:induction false} FieldsAreChronology(a: Instant, b: Instant)
    requires Valid(a) && Valid(b)
    ensures FieldsBefore(a, b) <==> Nanos(a) < Nanos(b)
  {
    if Before3(a.date, b.date) { DatesInOrder(a, b); }
    if Before3(b.date, a.date) { DatesInOrder(b, a); }
    assert Before3(a.date, b.date) || Before3(b.date, a.date) || a.date == b.date;
  }

  // ---- The text ----

  /** Three numbers, the last two of two digits, with separators. */
  function Triple(t: (nat, nat, nat), w: nat, sep: char): (s: string)
    ensures |s| == w + 6
  {
    Digits(t.0, w) + [sep] + Digits(t.1, 2) + [sep] + Digits(t.2, 2)
  }

  /** What the last digit counts, in nanoseconds. */
  function Unit(groups: nat): nat {
    if groups == 0 then 1_000_000_000 else if groups == 1 then 1_000_000 else if groups == 2 then 1000 else 1
  }

  /** How many groups of three digits the fraction takes: as few as lose nothing. */
  function Groups(nanos: nat): (g: nat)
    ensures g <= 3
    ensures nanos < 1_000_000_000 ==> nanos % Unit(g) == 0 && forall h :: 0 <= h < g ==> nanos % Unit(h) != 0
  {
    if nanos == 0 then 0 else if nanos % 1_000_000 == 0 then 1 else if nanos % 1000 == 0 then 2 else 3
  }

  /** The fraction of a second, cut off after some groups. */
  function Lead(nanos: nat, groups: nat): string {
    if groups == 0 then "" else "." + Digits(nanos / Unit(groups), 3 * groups)
  }

  function Fraction(nanos: nat): string { Lead(nanos, Groups(nanos)) }

  function Tail(nanos: nat): string { Fraction(nanos) + "+00:00" }

  function Text(t: Instant): string { Triple(t.date, 4, '-') + "T" + Triple(t.clock, 2, ':') + Tail(t.nanos) }

  lemma {:induction false} TripleOrder(a: (nat, nat, nat), b: (nat, nat, nat), w: nat, sep: char)
    requires a.0 < Pow10(w) && b.0 < Pow10(w) && a.1 < 100 && b.1 < 100 && a.2 < 100 && b.2 < 100
    ensures Less(Triple(a, w, sep), Triple(b, w, sep)) <==> Before3(a, b)
    ensures Triple(a, w, sep) == Triple(b, w, sep) <==> a == b
  {
    assert Pow10(2) == 100 by { assert Pow10(1) == 10; }
    DigitsOrder(a.0, b.0, w);
    DigitsOrder(a.1, b.1, 2);
    DigitsOrder(a.2, b.2, 2);
    PairOrder(Digits(a.0, w), Digits(b.0, w), sep, Digits(a.1, 2), Digits(b.1, 2));
    var x, y := Digits(a.0, w) + [sep] + Digits(a.1, 2), Digits(b.0, w) + [sep] + Digits(b.1, 2);
    PairOrder(x, y, sep, Digits(a.2, 2), Digits(b.2, 2));
  }

  lemma {:induction false} PairOrder(x: string, y: string, sep: char, a: string, b: string)
    requires |x| == |y| && |a| == |b|
    ensures Less(x + [sep] + a, y + [sep] + b) <==> Less(x, y) || (x == y && Less(a, b))
    ensures x + [sep] + a == y + [sep] + b <==> x == y && a == b
  {
    assert x + [sep] + a == x + ([sep] + a) && y + [sep] + b == y + ([sep] + b);
    LessThen(x, y, [sep] + a, [sep] + b);
    LessThen([sep], [sep], a, b);
    assert !Less([sep], [sep]) by { assert [sep][1..] == []; }
    var s, t := x + [sep] + a, y + [sep] + b;
    assert s[..|x|] == x && t[..|y|] == y && s[|x| + 1..] == a && t[|y| + 1..] == b;
  }

  // ---- Fractions ----

  lemma UnitStep(nanos: nat, g: nat)
    requires 0 < g < 3
    ensures nanos / Unit(g + 1) / 1000 == nanos / Unit(g)
  {
  }

  lemma {:induction false} PointSplit(n: nat, w: nat)
    ensures "." + Digits(n, w + 3) == "." + Digits(n / 1000, w) + Digits(n % 1000, 3)
  {
    DigitsSplit(n, w);
  }

  /** One group more. */
  lemma {:induction false} LeadGrows(nanos: nat, g: nat) returns (three: string)
    requires 0 < g < 3
    ensures Lead(nanos, g + 1) == Lead(nanos, g) + three && |three| == 3 && '0' <= three[0] <= '9'
  {
    var n, w := nanos / Unit(g + 1), 3 * g;
    three := Digits(n % 1000, 3);
    UnitStep(nanos, g);
    PointSplit(n, w);
    LeadingDigit(n % 1000, 3);
    assert 3 * (g + 1) == w + 3;
  }

  /** A lead with more groups goes on with a point or a digit. */
  lemma {:induction false} LeadIsPrefix(nanos: nat, g: nat, k: nat) returns (rest: string)
    requires g < k <= 3
    ensures Lead(nanos, k) == Lead(nanos, g) + rest && rest != [] && (rest[0] == '.' || '0' <= rest[0] <= '9')
    decreases k - g
  {
    if g == 0 {
      rest := Lead(nanos, k);
    } else {
      var three := LeadGrows(nanos, g);
      rest := three;
      if g + 1 < k {
        var more := LeadIsPrefix(nanos, g + 1, k);
        Regroup(Lead(nanos, g), three, more);
        rest := three + more;
      }
    }
  }

  lemma {:induction false} LeadingDigit(n: nat, w: nat)
    requires w > 0
    ensures '0' <= Digits(n, w)[0] <= '9'
  {
    if w > 1 { LeadingDigit(n / 10, w - 1); }
  }

  lemma {:induction false} LeadOrder(m: nat, n: nat, g: nat)
    requires m < 1_000_000_000 && n < 1_000_000_000 && g <= 3
    ensures |Lead(m, g)| == |Lead(n, g)|
    ensures Less(Lead(m, g), Lead(n, g)) <==> m / Unit(g) < n / Unit(g)
    ensures Lead(m, g) == Lead(n, g) <==> m / Unit(g) == n / Unit(g)
  {
    if g > 0 {
      var x, y := m / Unit(g), n / Unit(g);
      Powers();
      DigitsOrder(x, y, 3 * g);
      LessThen(".", ".", Digits(x, 3 * g), Digits(y, 3 * g));
      assert !Less(".", ".");
      assert ("." + Digits(x, 3 * g))[1..] == Digits(x, 3 * g) && ("." + Digits(y, 3 * g))[1..] == Digits(y, 3 * g);
    }
  }

  lemma Powers()
    ensures Pow10(3) == 1000 && Pow10(6) == 1_000_000 && Pow10(9) == 1_000_000_000
  {
    assert Pow10(3) == 1000 by { assert Pow10(1) == 10; }
    assert Pow10(6) == 1_000_000 by { assert Pow10(4) == 10000; }
    assert Pow10(9) == 1_000_000_000 by { assert Pow10(7) == 10_000_000; }
  }

  /** A fraction against one written with at least as many groups. */
  lemma {:induction false} TailOrderUp(m: nat, n: nat)
    requires m < 1_000_000_000 && n < 1_000_000_000 && Groups(m) <= Groups(n)
    ensures Less(Tail(m), Tail(n)) <==> m < n
    ensures Less(Tail(n), Tail(m)) <==> n < m
  {
    var g := Groups(m);
    LeadOrder(m, n, g);
    LeadOrder(n, m, g);
    var a, b := "+00:00", "+00:00";
    if g == Groups(n) {
      assert !Less(a, a);
    } else {
      var rest := LeadIsPrefix(n, g, Groups(n));
      b := rest + "+00:00";
      assert Tail(n) == Lead(n, g) + b;
      assert b[0] == rest[0];
      assert a[0] < b[0];
    }
    LessThen(Lead(m, g), Lead(n, g), a, b);
    LessThen(Lead(n, g), Lead(m, g), b, a);
    UnitOrder(m, n, g);
  }

  /** Whole units decide, unless they are equal, and then the number with the finer fraction is larger. */
  lemma UnitOrder(m: nat, n: nat, g: nat)
    requires m < 1_000_000_000 && n < 1_000_000_000 && g == Groups(m) <= Groups(n)
    ensures m / Unit(g) < n / Unit(g) ==> m < n
    ensures n / Unit(g) < m / Unit(g) ==> n < m
    ensures m / Unit(g) == n / Unit(g) ==> if Groups(n) == g then m == n else m < n
  {
  }

  lemma {:induction false} TailOrder(m: nat, n: nat)
    requires m < 1_000_000_000 && n < 1_000_000_000
    ensures Less(Tail(m), Tail(n)) <==> m < n
  {
    if Groups(m) <= Groups(n) { TailOrderUp(m, n); } else { TailOrderUp(n, m); }
  }

  /** Text order is time order, for all UTC instants of the years 0000-9999, whatever number of fraction
      digits each is written with. */
  lemma {:induction false} TextOrderIsTimeOrder(a: Instant, b: Instant)
    requires Valid(a) && Valid(b)
    ensures Less(Text(a), Text(b)) <==> Nanos(a) < Nanos(b)
  {
    assert Pow10(4) == 10000 by { assert Pow10(2) == 100; }
    assert Pow10(2) == 100;
    TripleOrder(a.date, b.date, 4, '-');
    TripleOrder(a.clock, b.clock, 2, ':');
    TailOrder(a.nanos, b.nanos);
    var d, e := Triple(a.date, 4, '-'), Triple(b.date, 4, '-');
    var c, f := Triple(a.clock, 2, ':'), Triple(b.clock, 2, ':');
    PairOrder(d, e, 'T', c, f);
    LessThen(d + "T" + c, e + "T" + f, Tail(a.nanos), Tail(b.nanos));
    FieldsAreChronology(a, b);
  }
}
