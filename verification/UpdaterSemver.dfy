/** The updater's semantic versions: cmd/sub2api-limit-updater/semver.go. */
module UpdaterSemver {
  import opened Options
  import opened Text
  import opened SemverOrder
  import opened SemverText

  const UINT64_LIMIT: nat := 0x1_0000_0000_0000_0000

  /**
   semverPattern.FindStringSubmatch: the three numbers and the pre-release text.  The pattern is
   anchored and its language is `Spelled`, see PatternLanguage.
   */
  function FindSubmatches(raw: string): (m: Option<seq<string>>)
    ensures m.Some? ==> |m.value| == 4
  {
    if Shaped(raw)
    then Some(Split(Core(raw), '.') + [if After(BeforeBuild(raw), '-').Some? then After(BeforeBuild(raw), '-').value else ""])
    else None
  }

  lemma PatternLanguage(raw: string)
    ensures FindSubmatches(raw).Some? <==> exists v, build :: Spelled(raw, v, build)
    ensures forall v, build :: Spelled(raw, v, build) ==>
              FindSubmatches(raw).value == [Decimal(v.major), Decimal(v.minor), Decimal(v.patch), PreText(v.pre)]
  {
    if Shaped(raw) {
      ShapedIsSpelled(raw);
    }
    forall v, build | Spelled(raw, v, build)
      ensures Shaped(raw)
      ensures FindSubmatches(raw).value == [Decimal(v.major), Decimal(v.minor), Decimal(v.patch), PreText(v.pre)]
    {
      SpelledIsShaped(raw, v, build);
      DenotedRender(v);
      CutAfterPrefix(Render(v), BuildSuffix(build), '+');
      DenotedCore(v);
    }
  }

  /** strconv.ParseUint(s, 10, 64) */
  function ParseUint(s: string): Option<nat> {
    if s != [] && AllDigits(s) && Value(s) < UINT64_LIMIT then Some(Value(s)) else None
  }

  /** The pre-release identifiers of a match. */
  function MatchedPre(text: string): seq<string> { if text != "" then Split(text, '.') else [] }

  ghost predicate PreIdentifiers(pre: seq<string>) { forall id :: id in pre ==> PreIdentifier(id) }

  lemma SubmatchesMean(raw: string, m: seq<string>)
    requires FindSubmatches(raw) == Some(m)
    ensures |m| == 4 && forall i :: 0 <= i < 3 ==> Numeral(m[i])
    ensures forall id :: id in MatchedPre(m[3]) ==> Identifier(id)
    ensures Parse(raw, UINT64_LIMIT) ==
            if Value(m[0]) < UINT64_LIMIT && Value(m[1]) < UINT64_LIMIT && Value(m[2]) < UINT64_LIMIT && PreIdentifiers(MatchedPre(m[3]))
            then Some(SemVersion(Value(m[0]), Value(m[1]), Value(m[2]), MatchedPre(m[3]))) else None
  {
    assert forall i :: 0 <= i < 3 ==> m[i] in Split(Core(raw), '.');
    assert "" in Split("", '.');
    assert Meaning(raw) == SemVersion(Value(m[0]), Value(m[1]), Value(m[2]), MatchedPre(m[3]));
  }

  /** The pre-release part of parseSemVersion: a numeric identifier has no leading zero. */
  method ParsePreRelease(text: string) returns (pre: Option<seq<string>>)
    requires forall id :: id in MatchedPre(text) ==> Identifier(id)
    ensures pre == if PreIdentifiers(MatchedPre(text)) then Some(MatchedPre(text)) else None
  {
    if text == "" {
      return Some([]);
    }
    var ids := Split(text, '.');
    for i := 0 to |ids|
      invariant forall k :: 0 <= k < i ==> PreIdentifier(ids[k])
    {
      var identifier := ids[i];
      assert identifier in ids;
      if IsNumericIdentifier(identifier) && |identifier| > 1 && identifier[0] == '0' {
        assert !PreIdentifier(identifier);
        return None;
      }
    }
    return Some(ids);
  }

  /** The loop of parseSemVersion over the three numbers. */
  method ParseNumbers(m: seq<string>) returns (numbers: array<nat>, ok: bool)
    requires |m| == 4 && forall i :: 0 <= i < 3 ==> Numeral(m[i])
    ensures fresh(numbers) && numbers.Length == 3
    ensures ok <==> forall i :: 0 <= i < 3 ==> Numeral(m[i]) && Value(m[i]) < UINT64_LIMIT
    ensures ok ==> forall i :: 0 <= i < 3 ==> Numeral(m[i]) && numbers[i] == Value(m[i])
  {
    numbers := new nat[3](i => 0);
    for i := 0 to 3
      invariant forall k :: 0 <= k < i ==> numbers[k] == Value(m[k]) < UINT64_LIMIT
    {
      var value := ParseUint(m[i]);
      if value.None? {
        assert Value(m[i]) >= UINT64_LIMIT;
        return numbers, false;
      }
      numbers[i] := value.value;
    }
    return numbers, true;
  }

  /** The updater accepts exactly the texts of Semantic Versioning whose numbers fit 64 bits. */
  method ParseSemVersion(raw: string) returns (version: Option<SemVersion>)
    ensures version == Parse(raw, UINT64_LIMIT)
  {
    var matches := FindSubmatches(raw);
    if matches.None? {
      return None;
    }
    var m := matches.value;
    SubmatchesMean(raw, m);
    var numbers, fits := ParseNumbers(m);
    if !fits {
      return None;
    }
    var pre := ParsePreRelease(m[3]);
    if pre.None? {
      return None;
    }
    return Some(SemVersion(numbers[0], numbers[1], numbers[2], pre.value));
  }

  function IsNumericIdentifier(value: string): bool { value != "" && AllDigits(value) }

  function CompareUint(left: nat, right: nat): int {
    if left < right then -1 else if left > right then 1 else 0
  }

  function CompareNumericIdentifier(left: string, right: string): int {
    if |left| < |right| then -1
    else if |left| > |right| then 1
    else if TextLess(left, right) then -1
    else 1
  }

  /** The body of compareSemVersion's loop for two different identifiers. */
  function CompareIdentifier(left: string, right: string): int {
    var leftNumeric := IsNumericIdentifier(left);
    var rightNumeric := IsNumericIdentifier(right);
    if leftNumeric && rightNumeric then CompareNumericIdentifier(left, right)
    else if leftNumeric then -1
    else if rightNumeric then 1
    else if TextLess(left, right) then -1
    else 1
  }

  lemma CompareIdentifierIsOrder(a: string, b: string)
    requires PreIdentifier(a) && PreIdentifier(b) && a != b
    ensures CompareIdentifier(a, b) == if IdentifierBefore(a, b) then -1 else 1
  {
    if Numeric(a) && Numeric(b) {
      NumeralOrder(a, b);
    }
  }

  /** compareSemVersion is the order of section 11 on versions the parser can return. */
  method CompareSemVersion(left: SemVersion, right: SemVersion) returns (c: int)
    ensures WellFormed(left) && WellFormed(right) ==>
              c == (if Precedes(left, right) then -1 else if Precedes(right, left) then 1 else 0) &&
              (c == 0 <==> left == right)
  {
    ghost var wellFormed := WellFormed(left) && WellFormed(right);
    if wellFormed {
      PrecedesIsTotal(left, right, right);
    }
    c := CompareUint(left.major, right.major);
    if c != 0 {
      return;
    }
    c := CompareUint(left.minor, right.minor);
    if c != 0 {
      return;
    }
    c := CompareUint(left.patch, right.patch);
    if c != 0 {
      return;
    }
    if |left.pre| == 0 && |right.pre| == 0 {
      return 0;
    }
    if |left.pre| == 0 {
      return 1;
    }
    if |right.pre| == 0 {
      return -1;
    }
    var i := 0;
    while i < |left.pre| && i < |right.pre|
      invariant i <= |left.pre| && i <= |right.pre| && left.pre[..i] == right.pre[..i]
    {
      if left.pre[i] != right.pre[i] {
        c := CompareIdentifier(left.pre[i], right.pre[i]);
        if wellFormed {
          CompareIdentifierIsOrder(left.pre[i], right.pre[i]);
          IdentifierTrichotomy(left.pre[i], right.pre[i]);
          assert ListSplitsAt(left.pre, right.pre, i) || ListSplitsAt(right.pre, left.pre, i);
        }
        return;
      }
      i := i + 1;
    }
    c := CompareUint(|left.pre|, |right.pre|);
    assert c == -1 ==> ListSplitsAt(left.pre, right.pre, i);
    assert c == 1 ==> ListSplitsAt(right.pre, left.pre, i);
  }
}
