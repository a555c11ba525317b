/**
 Semantic Versioning 2.0.0: what a version is (sections 2, 9 and 10) and how versions are
 ordered (section 11), stated without reference to either parser or comparator.
 */
module SemverOrder {
  import opened Text

  /** A version without its build metadata, which section 10 says to ignore. */
  datatype SemVersion = SemVersion(major: nat, minor: nat, patch: nat, pre: seq<string>) {
    predicate Stable() { pre == [] }
  }

  predicate IdentifierChar(c: char) { IsDigit(c) || 'a' <= c <= 'z' || 'A' <= c <= 'Z' || c == '-' }

  predicate Identifier(s: string) { s != [] && forall i :: 0 <= i < |s| ==> IdentifierChar(s[i]) }

  predicate Numeric(s: string) { s != [] && AllDigits(s) }

  /** Section 9: numeric identifiers carry no leading zero. */
  predicate PreIdentifier(s: string) { Identifier(s) && (Numeric(s) ==> Numeral(s)) }

  predicate WellFormed(v: SemVersion) { forall s :: s in v.pre ==> PreIdentifier(s) }

  // ----- section 11

  /** ASCII sort order: the first difference decides, and a proper prefix comes first. */
  ghost predicate TextBefore(a: string, b: string) { exists k :: TextSplitsAt(a, b, k) }

  ghost predicate TextSplitsAt(a: string, b: string, k: nat) {
    && k <= |a| && k < |b| && a[..k] == b[..k]
    && (k == |a| || a[k] < b[k])
  }

  /** 11.4.1 to 11.4.3 */
  ghost predicate IdentifierBefore(a: string, b: string) {
    if Numeric(a) && Numeric(b) then Value(a) < Value(b)
    else if Numeric(a) || Numeric(b) then Numeric(a)
    else TextBefore(a, b)
  }

  /** 11.4: the first different identifier decides; 11.4.4: a longer list comes later. */
  ghost predicate ListSplitsAt(p: seq<string>, q: seq<string>, k: nat) {
    && k <= |p| && k < |q| && p[..k] == q[..k]
    && (k == |p| || IdentifierBefore(p[k], q[k]))
  }

  /** 11.3: a pre-release comes before its release. */
  ghost predicate PreBefore(p: seq<string>, q: seq<string>) {
    if p == [] || q == [] then p != [] && q == [] else exists k :: ListSplitsAt(p, q, k)
  }

  /** 11.2 */
  ghost predicate Precedes(v: SemVersion, w: SemVersion) {
    if v.major != w.major then v.major < w.major
    else if v.minor != w.minor then v.minor < w.minor
    else if v.patch != w.patch then v.patch < w.patch
    else PreBefore(v.pre, w.pre)
  }

  /** The standard's own examples in 11.2 and 11.4.4. */
  lemma StandardExamples()
    ensures Precedes(SemVersion(1, 0, 0, []), SemVersion(2, 0, 0, [])) && Precedes(SemVersion(2, 0, 0, []), SemVersion(2, 1, 0, []))
    ensures Precedes(SemVersion(2, 1, 0, []), SemVersion(2, 1, 1, []))
    ensures Precedes(SemVersion(1, 0, 0, ["alpha"]), SemVersion(1, 0, 0, ["alpha", "1"]))
    ensures Precedes(SemVersion(1, 0, 0, ["alpha", "1"]), SemVersion(1, 0, 0, ["alpha", "beta"]))
    ensures Precedes(SemVersion(1, 0, 0, ["alpha", "beta"]), SemVersion(1, 0, 0, ["beta"]))
    ensures Precedes(SemVersion(1, 0, 0, ["beta"]), SemVersion(1, 0, 0, ["beta", "2"]))
    ensures Precedes(SemVersion(1, 0, 0, ["beta", "2"]), SemVersion(1, 0, 0, ["beta", "11"]))
    ensures Precedes(SemVersion(1, 0, 0, ["beta", "11"]), SemVersion(1, 0, 0, ["rc", "1"]))
    ensures Precedes(SemVersion(1, 0, 0, ["rc", "1"]), SemVersion(1, 0, 0, []))
  {
    assert ListSplitsAt(["alpha"], ["alpha", "1"], 1);
    assert !AllDigits("beta") by { assert !IsDigit("beta"[0]); }
    assert IdentifierBefore("1", "beta");
    assert ListSplitsAt(["alpha", "1"], ["alpha", "beta"], 1);
    assert !AllDigits("alpha") by { assert !IsDigit("alpha"[0]); }
    assert TextSplitsAt("alpha", "beta", 0);
    assert ListSplitsAt(["alpha", "beta"], ["beta"], 0);
    assert ListSplitsAt(["beta"], ["beta", "2"], 1);
    assert Value("2") == 2 && Value("11") == 11 by {
      assert "2"[..0] == "" && "11"[..1] == "1" && "1"[..0] == "";
    }
    assert ListSplitsAt(["beta", "2"], ["beta", "11"], 1);
    assert !AllDigits("rc") by { assert !IsDigit("rc"[0]); }
    assert TextSplitsAt("beta", "rc", 0);
    assert ListSplitsAt(["beta", "11"], ["rc", "1"], 0);
  }

  // ----- a numeral's length and text decide its value

  function Power10(n: nat): nat { if n == 0 then 1 else 10 * Power10(n - 1) }

  lemma {:induction false} ValueBounds(s: string)
    requires AllDigits(s)
    ensures Value(s) < Power10(|s|)
    ensures s != [] && s[0] != '0' ==> Value(s) >= Power10(|s| - 1)
  {
    if |s| > 0 {
      ValueBounds(s[..|s| - 1]);
    }
  }

  lemma {:induction false} PowersGrow(m: nat, n: nat)
    requires m <= n
    ensures Power10(m) <= Power10(n)
  {
    if m < n {
      PowersGrow(m, n - 1);
    }
  }

  /** Before the last digit, or at it. */
  lemma LastDigitDecides(p: string, q: string, c: char, d: char)
    requires |p| == |q|
    ensures TextBefore(p + [c], q + [d]) <==> TextBefore(p, q) || (p == q && c < d)
  {
    var (a, b) := (p + [c], q + [d]);
    if TextBefore(a, b) {
      var k: nat :| TextSplitsAt(a, b, k);
      if k < |p| {
        assert a[..k] == p[..k] && b[..k] == q[..k];
        assert TextSplitsAt(p, q, k);
      } else {
        assert a[..k] == p && b[..k] == q;
      }
    }
    if TextBefore(p, q) {
      var k: nat :| TextSplitsAt(p, q, k);
      assert a[..k] == p[..k] && b[..k] == q[..k];
      assert TextSplitsAt(a, b, k);
    } else if p == q && c < d {
      assert a[..|p|] == p && b[..|p|] == q;
      assert TextSplitsAt(a, b, |p|);
    }
  }

  lemma {:induction false} SameLengthText(a: string, b: string)
    requires AllDigits(a) && AllDigits(b) && |a| == |b|
    ensures TextBefore(a, b) <==> Value(a) < Value(b)
    ensures Value(a) == Value(b) ==> a == b
  {
    var n := |a|;
    if n > 0 {
      var (p, q) := (a[..n - 1], b[..n - 1]);
      SameLengthText(p, q);
      LastDigitDecides(p, q, a[n - 1], b[n - 1]);
      assert a == p + [a[n - 1]] && b == q + [b[n - 1]];
    }
  }

  /** Comparing lengths, then text, compares the values, because numerals have no leading zeros. */
  lemma NumeralOrder(a: string, b: string)
    requires Numeral(a) && Numeral(b)
    ensures Value(a) < Value(b) <==> |a| < |b| || (|a| == |b| && TextBefore(a, b))
    ensures Value(a) == Value(b) ==> a == b
  {
    ValueBounds(a);
    ValueBounds(b);
    if |a| == |b| {
      SameLengthText(a, b);
    } else if |a| < |b| {
      PowersGrow(|a|, |b| - 1);
    } else {
      PowersGrow(|b|, |a| - 1);
    }
  }

  // ----- a strict total order

  lemma TextTrichotomy(a: string, b: string)
    ensures TextBefore(a, b) || a == b || TextBefore(b, a)
    ensures !(TextBefore(a, b) && TextBefore(b, a)) && !TextBefore(a, a)
  {
    var k := FirstDifference(a, b);
    if a != b {
      assert TextSplitsAt(a, b, k) || TextSplitsAt(b, a, k);
    }
  }

  /** The length of the longest common prefix. */
  function FirstDifference<T(==)>(a: seq<T>, b: seq<T>): (k: nat)
    ensures k <= |a| && k <= |b| && a[..k] == b[..k]
    ensures k < |a| && k < |b| ==> a[k] != b[k]
    ensures k == |a| == |b| ==> a == b
  {
    if a == [] || b == [] || a[0] != b[0] then 0
    else
      var k := FirstDifference(a[1..], b[1..]);
      assert a[..k + 1] == [a[0]] + a[1..][..k] && b[..k + 1] == [b[0]] + b[1..][..k];
      k + 1
  }

  /** Go's < on strings, which on ASCII text is the order of section 11.4.2. */
  predicate TextLess(a: string, b: string)
    ensures TextLess(a, b) <==> TextBefore(a, b)
  {
    var k := FirstDifference(a, b);
    TextTrichotomy(a, b);
    assert k < |b| && (k == |a| || a[k] < b[k]) ==> TextSplitsAt(a, b, k);
    assert k < |a| && (k == |b| || b[k] < a[k]) ==> TextSplitsAt(b, a, k);
    k < |b| && (k == |a| || a[k] < b[k])
  }

  lemma TextTransitive(a: string, b: string, c: string)
    requires TextBefore(a, b) && TextBefore(b, c)
    ensures TextBefore(a, c)
  {
    var i: nat :| TextSplitsAt(a, b, i);
    var j: nat :| TextSplitsAt(b, c, j);
    var k := if i < j then i else j;
    assert a[..k] == b[..i][..k] == b[..k] && b[..k] == b[..j][..k] == c[..k];
    if i < j {
      assert c[..j][i] == b[..j][i];
    } else if j < i {
      assert b[..i][j] == a[..i][j];
    }
    assert TextSplitsAt(a, c, k);
  }

  lemma IdentifierTrichotomy(a: string, b: string)
    requires PreIdentifier(a) && PreIdentifier(b)
    ensures IdentifierBefore(a, b) || a == b || IdentifierBefore(b, a)
    ensures !(IdentifierBefore(a, b) && IdentifierBefore(b, a)) && !IdentifierBefore(a, a)
  {
    TextTrichotomy(a, b);
    if Numeric(a) && Numeric(b) {
      NumeralOrder(a, b);
    }
  }

  lemma IdentifierTransitive(a: string, b: string, c: string)
    requires IdentifierBefore(a, b) && IdentifierBefore(b, c)
    ensures IdentifierBefore(a, c)
  {
    if !Numeric(a) && !Numeric(b) && !Numeric(c) {
      TextTransitive(a, b, c);
    }
  }

  lemma ListAsymmetric(p: seq<string>, q: seq<string>, i: nat, j: nat)
    requires (forall s :: s in p ==> PreIdentifier(s)) && (forall s :: s in q ==> PreIdentifier(s))
    ensures !(ListSplitsAt(p, q, i) && ListSplitsAt(q, p, j))
  {
    if i < |p| && i < |q| {
      IdentifierTrichotomy(p[i], q[i]);
      assert i < j <= |q| && j <= |p| ==> p[..j][i] == p[i] && q[..j][i] == q[i];
    }
    if j < |p| && j < |q| {
      IdentifierTrichotomy(p[j], q[j]);
      assert j < i <= |p| && i <= |q| ==> p[..i][j] == p[j] && q[..i][j] == q[j];
    }
  }

  lemma ListTrichotomy(p: seq<string>, q: seq<string>)
    requires (forall s :: s in p ==> PreIdentifier(s)) && (forall s :: s in q ==> PreIdentifier(s))
    ensures PreBefore(p, q) || p == q || PreBefore(q, p)
    ensures !(PreBefore(p, q) && PreBefore(q, p)) && !PreBefore(p, p)
  {
    if p != [] && q != [] {
      var k := FirstDifference(p, q);
      if p != q {
        if k < |p| && k < |q| {
          IdentifierTrichotomy(p[k], q[k]);
        }
        assert ListSplitsAt(p, q, k) || ListSplitsAt(q, p, k);
      }
      forall i: nat, j: nat
        ensures !(ListSplitsAt(p, q, i) && ListSplitsAt(q, p, j))
      {
        ListAsymmetric(p, q, i, j);
      }
      forall i: nat
        ensures !ListSplitsAt(p, p, i)
      {
        ListAsymmetric(p, p, i, i);
      }
    }
  }

  lemma ListTransitive(p: seq<string>, q: seq<string>, r: seq<string>)
    requires PreBefore(p, q) && PreBefore(q, r)
    ensures PreBefore(p, r)
  {
    if q != [] && r != [] {
      var i: nat :| ListSplitsAt(p, q, i);
      var j: nat :| ListSplitsAt(q, r, j);
      var k := if i < j then i else j;
      assert p[..k] == q[..i][..k] == q[..k] && q[..k] == q[..j][..k] == r[..k];
      if i < j {
        assert r[..j][i] == q[..j][i];
      } else if j < i {
        assert q[..i][j] == p[..i][j];
      } else if i < |p| && i < |q| {
        IdentifierTransitive(p[i], q[i], r[i]);
      }
      assert ListSplitsAt(p, r, k);
    }
  }

  /** Precedence is a strict total order on well-formed versions. */
  lemma PrecedesIsTotal(u: SemVersion, v: SemVersion, w: SemVersion)
    requires WellFormed(u) && WellFormed(v) && WellFormed(w)
    ensures Precedes(u, v) || u == v || Precedes(v, u)
    ensures !(Precedes(u, v) && Precedes(v, u)) && !Precedes(u, u)
    ensures Precedes(u, v) && Precedes(v, w) ==> Precedes(u, w)
  {
    ListTrichotomy(u.pre, v.pre);
    if PreBefore(u.pre, v.pre) && PreBefore(v.pre, w.pre) {
      ListTransitive(u.pre, v.pre, w.pre);
    }
  }
}
