/** The string operations both version parsers rely on: cutting, splitting, trimming and decimal numerals. */
module Text {

  predicate IsDigit(c: char) { '0' <= c <= '9' }

  predicate AllDigits(s: string) { forall i :: 0 <= i < |s| ==> IsDigit(s[i]) }

  // ----- cutting and splitting

  /** strings.IndexByte, with |s| for "not found". */
  function Index(s: string, c: char): (k: nat)
    ensures k <= |s|
    ensures forall i :: 0 <= i < k ==> s[i] != c
    ensures k < |s| ==> s[k] == c
  {
    if s == [] then 0 else if s[0] == c then 0 else 1 + Index(s[1..], c)
  }

  lemma IndexIs(s: string, c: char, k: nat)
    requires k <= |s| && (forall i :: 0 <= i < k ==> s[i] != c) && (k < |s| ==> s[k] == c)
    ensures Index(s, c) == k
  {
    assert Index(s, c) < |s| ==> s[Index(s, c)] == c;
  }

  /** strings.Split on one separator character. */
  function Split(s: string, sep: char): (parts: seq<string>)
    ensures parts != []
    decreases |s|
  {
    var k := Index(s, sep);
    if k == |s| then [s] else [s[..k]] + Split(s[k + 1..], sep)
  }

  function Join(parts: seq<string>, sep: char): string
    requires parts != []
  {
    if |parts| == 1 then parts[0] else parts[0] + [sep] + Join(parts[1..], sep)
  }

  lemma {:induction false} JoinSplit(s: string, sep: char)
    ensures Join(Split(s, sep), sep) == s
    ensures forall p :: p in Split(s, sep) ==> sep !in p
    decreases |s|
  {
    var k := Index(s, sep);
    if k < |s| {
      JoinSplit(s[k + 1..], sep);
      assert Split(s, sep)[1..] == Split(s[k + 1..], sep);
      assert s == s[..k] + [sep] + s[k + 1..];
    }
  }

  /** The first separator of a join is where its first part ends. */
  lemma JoinStarts(parts: seq<string>, sep: char)
    requires parts != [] && sep !in parts[0]
    ensures var s := Join(parts, sep);
            && Index(s, sep) == |parts[0]| <= |s| && s[..|parts[0]|] == parts[0]
            && (|parts| == 1 ==> s == parts[0])
            && (|parts| > 1 ==> |parts[0]| < |s| && s[|parts[0]| + 1..] == Join(parts[1..], sep))
  {
    var s := Join(parts, sep);
    var k := |parts[0]|;
    assert forall i :: 0 <= i < k ==> s[i] == parts[0][i] && s[i] in parts[0];
    IndexIs(s, sep, k);
  }

  lemma {:induction false} SplitJoin(parts: seq<string>, sep: char)
    requires parts != [] && forall p :: p in parts ==> sep !in p
    ensures Split(Join(parts, sep), sep) == parts
  {
    JoinStarts(parts, sep);
    if |parts| > 1 {
      SplitJoin(parts[1..], sep);
      assert parts == [parts[0]] + parts[1..];
    }
  }

  lemma {:induction false} JoinChars(parts: seq<string>, sep: char, c: char)
    requires parts != [] && c != sep && forall p :: p in parts ==> c !in p
    ensures c !in Join(parts, sep)
  {
    if |parts| > 1 {
      JoinChars(parts[1..], sep, c);
    }
  }

  // ----- white space (unicode.IsSpace)

  predicate IsSpace(c: char) {
    c in {'\t', '\n', '\U{B}', '\U{C}', '\r', ' ', '\U{85}', '\U{A0}', '\U{1680}', '\U{2028}', '\U{2029}', '\U{202F}', '\U{205F}', '\U{3000}'}
    || '\U{2000}' <= c <= '\U{200A}'
  }

  /** strings.TrimSpace */
  function TrimSpace(s: string): (t: string)
    ensures t != [] ==> !IsSpace(t[0]) && !IsSpace(t[|t| - 1])
    decreases |s|
  {
    if s == [] then s
    else if IsSpace(s[0]) then TrimSpace(s[1..])
    else if IsSpace(s[|s| - 1]) then TrimSpace(s[..|s| - 1])
    else s
  }

  // ----- decimal numerals

  function DigitValue(c: char): nat
    requires IsDigit(c)
  {
    c as int - '0' as int
  }

  /** The number a digit string denotes. */
  function Value(s: string): nat
    requires AllDigits(s)
  {
    if s == [] then 0 else Value(s[..|s| - 1]) * 10 + DigitValue(s[|s| - 1])
  }

  /** 0, or digits that do not start with 0. */
  predicate Numeral(s: string) { s != [] && AllDigits(s) && (|s| > 1 ==> s[0] != '0') }

  /** fmt's %d */
  function Decimal(n: nat): (s: string)
    ensures AllDigits(s)
  {
    if n < 10 then [('0' as int + n) as char] else Decimal(n / 10) + [('0' as int + n % 10) as char]
  }

  lemma {:induction false} DecimalDenotes(n: nat)
    ensures Numeral(Decimal(n)) && Value(Decimal(n)) == n
    ensures n > 0 ==> Decimal(n)[0] != '0'
  {
    if n < 10 {
      assert Decimal(n)[..0] == [];
    } else {
      DecimalDenotes(n / 10);
      var s := Decimal(n);
      assert s[..|s| - 1] == Decimal(n / 10);
      assert s[0] == Decimal(n / 10)[0];
    }
  }

  lemma {:induction false} PositiveValue(s: string)
    requires AllDigits(s) && s != [] && s[0] != '0'
    ensures Value(s) > 0
  {
    if |s| > 1 {
      PositiveValue(s[..|s| - 1]);
    }
  }

  lemma {:induction false} NumeralIsDecimal(s: string)
    requires Numeral(s)
    ensures Decimal(Value(s)) == s
  {
    var n := |s| - 1;
    if n == 0 {
      assert s[..0] == [];
    } else {
      var head := s[..n];
      PositiveValue(head);
      NumeralIsDecimal(head);
      assert Value(s) / 10 == Value(head) && Value(s) % 10 == DigitValue(s[n]);
      assert s == head + [s[n]];
    }
  }
}
