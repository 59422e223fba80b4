/** Alerts and fingerprints: shared/src/lib.rs. */
module Shared {
  import opened Basics

  datatype Severity = Info | Warning | Critical

  datatype AlertState = Firing | Resolved

  /** The fields of an alert that drive control flow. Times are in nanoseconds. */
  datatype Alert = Alert(
    host: string, hostId: string, category: string, severity: Severity, state: AlertState,
    device: Option<string>, metric: string, fingerprint: string,
    ts: int, firstSeen: int, lastSeen: int, occurrences: nat)

  datatype Builder = Builder(
    host: string, hostId: string, category: string, metric: string, severity: Severity, device: Option<string>)
  {
    function Fp(): string { Fingerprint(hostId, category, device, metric) }

    function BuildFiring(wall: int): Alert {
      Alert(host, hostId, category, severity, Firing, device, metric, Fp(), wall, wall, wall, 1)
    }
  }

  function Fingerprint(hostId: string, category: string, device: Option<string>, metric: string): string {
    hostId + "|" + category + "|" + device.GetOr("-") + "|" + metric
  }

  predicate BarFree(s: string) { '|' !in s }

  /** The fields that an agent fills with machine ids and constants have no bar in them. */
  predicate PlainFields(hostId: string, category: string, metric: string) {
    BarFree(hostId) && BarFree(category) && BarFree(metric)
  }

  /** What every alert built by this code base satisfies: the fingerprint is that of its own fields. */
  predicate WellFormed(a: Alert) {
    && a.fingerprint == Fingerprint(a.hostId, a.category, a.device, a.metric)
    && PlainFields(a.hostId, a.category, a.metric)
  }

  lemma SplitAtFirstBar(x: string, r: string, y: string, s: string)
    requires BarFree(x) && BarFree(y)
    requires x + "|" + r == y + "|" + s
    ensures x == y && r == s
  {
    var l, m := x + "|" + r, y + "|" + s;
    assert l[|x|] == '|' && m[|y|] == '|';
    assert forall k :: 0 <= k < |x| ==> l[k] == x[k];
    assert forall k :: 0 <= k < |y| ==> m[k] == y[k];
    assert |x| == |y|;
    assert l[..|x|] == x && m[..|y|] == y;
    assert l[|x| + 1..] == r && m[|y| + 1..] == s;
  }

  lemma SplitAtLastBar(r: string, x: string, s: string, y: string)
    requires BarFree(x) && BarFree(y)
    requires r + "|" + x == s + "|" + y
    ensures x == y && r == s
  {
    var l, m := r + "|" + x, s + "|" + y;
    assert l[|r|] == '|' && m[|s|] == '|';
    assert forall k :: |r| < k < |l| ==> l[k] == x[k - |r| - 1];
    assert forall k :: |s| < k < |m| ==> m[k] == y[k - |s| - 1];
    assert |x| == |y|;
    assert l[..|r|] == r && m[..|s|] == s;
    assert l[|r| + 1..] == x && m[|s| + 1..] == y;
  }

  /** A bar-free host id can be read back off any fingerprint, whatever the other fields contain. */
  lemma HostIdDetermined(h1: string, c1: string, d1: Option<string>, m1: string,
                         h2: string, c2: string, d2: Option<string>, m2: string)
    requires BarFree(h1) && BarFree(h2)
    requires Fingerprint(h1, c1, d1, m1) == Fingerprint(h2, c2, d2, m2)
    ensures h1 == h2
    ensures c1 + "|" + d1.GetOr("-") + "|" + m1 == c2 + "|" + d2.GetOr("-") + "|" + m2
  {
    var r1, r2 := c1 + "|" + d1.GetOr("-") + "|" + m1, c2 + "|" + d2.GetOr("-") + "|" + m2;
    assert Fingerprint(h1, c1, d1, m1) == h1 + "|" + r1;
    assert Fingerprint(h2, c2, d2, m2) == h2 + "|" + r2;
    SplitAtFirstBar(h1, r1, h2, r2);
  }

  /** With bar-free host id, category and metric - the device is free, and may contain bars - two
      fingerprints are equal exactly when the fields are, a missing device counting as "-". */
  lemma FingerprintInjective(h1: string, c1: string, d1: Option<string>, m1: string,
                             h2: string, c2: string, d2: Option<string>, m2: string)
    requires PlainFields(h1, c1, m1) && PlainFields(h2, c2, m2)
    ensures Fingerprint(h1, c1, d1, m1) == Fingerprint(h2, c2, d2, m2)
       <==> h1 == h2 && c1 == c2 && d1.GetOr("-") == d2.GetOr("-") && m1 == m2
  {
    if Fingerprint(h1, c1, d1, m1) == Fingerprint(h2, c2, d2, m2) {
      HostIdDetermined(h1, c1, d1, m1, h2, c2, d2, m2);
      var t1, t2 := d1.GetOr("-") + "|" + m1, d2.GetOr("-") + "|" + m2;
      assert c1 + "|" + d1.GetOr("-") + "|" + m1 == c1 + "|" + t1;
      assert c2 + "|" + d2.GetOr("-") + "|" + m2 == c2 + "|" + t2;
      SplitAtFirstBar(c1, t1, c2, t2);
      SplitAtLastBar(d1.GetOr("-"), m1, d2.GetOr("-"), m2);
    }
  }

  /** Neither hypothesis of FingerprintInjective can go: a bar in the host id, or a device named "-". */
  lemma FingerprintCollisions()
    ensures Fingerprint("a|b", "c", None, "m") == Fingerprint("a", "b|c", None, "m")
    ensures forall h, c, m :: Fingerprint(h, c, None, m) == Fingerprint(h, c, Some("-"), m)
  {
    assert Fingerprint("a|b", "c", None, "m") == "a|b|c|-|m" == Fingerprint("a", "b|c", None, "m");
  }

  /** The part of a fingerprint before its first bar. */
  function HostOf(fp: string): string {
    if fp == "" || fp[0] == '|' then "" else [fp[0]] + HostOf(fp[1..])
  }

  lemma {:induction false} HostOfFingerprint(h: string, rest: string)
    requires BarFree(h)
    ensures HostOf(h + "|" + rest) == h
  {
    var fp := h + "|" + rest;
    if h == "" {
      assert fp[0] == '|';
    } else {
      assert fp[1..] == h[1..] + "|" + rest;
      HostOfFingerprint(h[1..], rest);
    }
  }

  lemma HostOfWellFormed(h: string, category: string, device: Option<string>, metric: string)
    requires BarFree(h)
    ensures HostOf(Fingerprint(h, category, device, metric)) == h
  {
    var rest := category + "|" + device.GetOr("-") + "|" + metric;
    assert Fingerprint(h, category, device, metric) == h + "|" + rest;
    HostOfFingerprint(h, rest);
  }
}
