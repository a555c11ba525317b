/**
 Which texts denote which versions (Semantic Versioning 2.0.0, sections 2, 9 and 10), and that
 cutting a text at its first '+', then at its first '-', then at its dots finds that version.
 */
module SemverText {
  import opened Options
  import opened Text
  import opened SemverOrder

  function CoreText(v: SemVersion): string {
    Decimal(v.major) + "." + Decimal(v.minor) + "." + Decimal(v.patch)
  }

  function PreText(pre: seq<string>): string { if pre == [] then "" else Join(pre, '.') }

  /** A version as text, without build metadata. */
  function Render(v: SemVersion): string {
    CoreText(v) + if v.pre == [] then "" else "-" + Join(v.pre, '.')
  }

  predicate Identifiers(parts: seq<string>) { forall p :: p in parts ==> Identifier(p) }

  function BuildSuffix(build: seq<string>): string { if build == [] then "" else "+" + Join(build, '.') }

  /** MAJOR.MINOR.PATCH[-identifiers][+identifiers], where numeric identifiers may still have leading zeros. */
  ghost predicate Spelled(raw: string, v: SemVersion, build: seq<string>) {
    Identifiers(v.pre) && Identifiers(build) && raw == Render(v) + BuildSuffix(build)
  }

  ghost predicate Denotes(raw: string, v: SemVersion) { WellFormed(v) && exists build :: Spelled(raw, v, build) }

  // ----- cutting

  function BeforeBuild(raw: string): string { raw[..Index(raw, '+')] }

  function Core(raw: string): string { BeforeBuild(raw)[..Index(BeforeBuild(raw), '-')] }

  /** The text after the first c, if there is a c. */
  function After(s: string, c: char): Option<string> {
    var k := Index(s, c);
    if k == |s| then None else Some(s[k + 1..])
  }

  predicate Dotted(text: string) { Identifiers(Split(text, '.')) }

  predicate ThreeNumerals(core: string) {
    |Split(core, '.')| == 3 && forall p :: p in Split(core, '.') ==> Numeral(p)
  }

  predicate Shaped(raw: string) {
    && (After(raw, '+').Some? ==> Dotted(After(raw, '+').value))
    && (After(BeforeBuild(raw), '-').Some? ==> Dotted(After(BeforeBuild(raw), '-').value))
    && ThreeNumerals(Core(raw))
  }

  function PreParts(raw: string): seq<string> {
    match After(BeforeBuild(raw), '-') case None => [] case Some(text) => Split(text, '.')
  }

  function Meaning(raw: string): SemVersion
    requires Shaped(raw)
  {
    var parts := Split(Core(raw), '.');
    assert forall i :: 0 <= i < 3 ==> parts[i] in parts;
    SemVersion(Value(parts[0]), Value(parts[1]), Value(parts[2]), PreParts(raw))
  }

  lemma JoinThree(a: string, b: string, c: string)
    ensures Join([a, b, c], '.') == a + "." + b + "." + c
  {
    assert [a, b, c][1..] == [b, c] && [b, c][1..] == [c];
    assert Join([b, c], '.') == b + "." + c;
    assert a + ['.'] + (b + "." + c) == a + "." + b + "." + c;
  }

  lemma CoreIsNumerals(core: string)
    requires ThreeNumerals(core)
    ensures var parts := Split(core, '.');
            Numeral(parts[0]) && Numeral(parts[1]) && Numeral(parts[2]) &&
            core == Decimal(Value(parts[0])) + "." + Decimal(Value(parts[1])) + "." + Decimal(Value(parts[2]))
  {
    var parts := Split(core, '.');
    assert parts[0] in parts && parts[1] in parts && parts[2] in parts;
    JoinSplit(core, '.');
    assert parts == [parts[0], parts[1], parts[2]];
    JoinThree(parts[0], parts[1], parts[2]);
    NumeralIsDecimal(parts[0]);
    NumeralIsDecimal(parts[1]);
    NumeralIsDecimal(parts[2]);
  }

  /** A text is what comes before its first c, then c and the rest if there is a c. */
  lemma CutRejoins(s: string, c: char)
    ensures s == s[..Index(s, c)] + if After(s, c).Some? then [c] + After(s, c).value else []
  {
  }

  lemma ShapedIsSpelled(raw: string)
    requires Shaped(raw)
    ensures exists build :: Spelled(raw, Meaning(raw), build)
  {
    var v := Meaning(raw);
    CoreIsNumerals(Core(raw));
    var rest := BeforeBuild(raw);
    CutRejoins(rest, '-');
    if After(rest, '-').Some? {
      JoinSplit(After(rest, '-').value, '.');
    }
    assert rest == Render(v);
    CutRejoins(raw, '+');
    var build := if After(raw, '+').Some? then Split(After(raw, '+').value, '.') else [];
    if After(raw, '+').Some? {
      JoinSplit(After(raw, '+').value, '.');
    }
    assert Spelled(raw, v, build);
  }

  /** A prefix free of c, then either nothing or c: the first c is right after the prefix. */
  lemma IndexAfterPrefix(prefix: string, suffix: string, c: char)
    requires c !in prefix && (suffix == "" || suffix[0] == c)
    ensures Index(prefix + suffix, c) == |prefix|
  {
    var s := prefix + suffix;
    assert forall i :: 0 <= i < |prefix| ==> s[i] == prefix[i] && s[i] in prefix;
    IndexIs(s, c, |prefix|);
  }

  lemma DigitsOnly(n: nat)
    ensures '.' !in Decimal(n) && '-' !in Decimal(n) && '+' !in Decimal(n)
  {
    var s := Decimal(n);
    assert forall i :: 0 <= i < |s| ==> IsDigit(s[i]);
  }

  lemma IdentifiersHaveNoDots(parts: seq<string>)
    requires Identifiers(parts)
    ensures forall p :: p in parts ==> '.' !in p && '+' !in p
  {
  }

  lemma DenotedCore(v: SemVersion)
    ensures '-' !in CoreText(v) && '+' !in CoreText(v)
    ensures ThreeNumerals(CoreText(v))
    ensures Split(CoreText(v), '.') == [Decimal(v.major), Decimal(v.minor), Decimal(v.patch)]
  {
    DigitsOnly(v.major);
    DigitsOnly(v.minor);
    DigitsOnly(v.patch);
    var parts := [Decimal(v.major), Decimal(v.minor), Decimal(v.patch)];
    JoinThree(parts[0], parts[1], parts[2]);
    SplitJoin(parts, '.');
    DecimalDenotes(v.major);
    DecimalDenotes(v.minor);
    DecimalDenotes(v.patch);
  }

  lemma CutAfterPrefix(prefix: string, suffix: string, c: char)
    requires c !in prefix && (suffix == "" || suffix[0] == c)
    ensures (prefix + suffix)[..Index(prefix + suffix, c)] == prefix
    ensures After(prefix + suffix, c) == if suffix == "" then None else Some(suffix[1..])
  {
    IndexAfterPrefix(prefix, suffix, c);
  }

  lemma DenotedRender(v: SemVersion)
    requires Identifiers(v.pre)
    ensures '+' !in Render(v)
    ensures Render(v)[..Index(Render(v), '-')] == CoreText(v)
    ensures After(Render(v), '-') == if v.pre == [] then None else Some(Join(v.pre, '.'))
  {
    DenotedCore(v);
    var dashed := if v.pre == [] then "" else "-" + Join(v.pre, '.');
    if v.pre != [] {
      IdentifiersHaveNoDots(v.pre);
      JoinChars(v.pre, '.', '+');
    }
    CutAfterPrefix(CoreText(v), dashed, '-');
  }

  lemma SpelledIsShaped(raw: string, v: SemVersion, build: seq<string>)
    requires Spelled(raw, v, build)
    ensures Shaped(raw) && Meaning(raw) == v
  {
    DenotedRender(v);
    CutAfterPrefix(Render(v), BuildSuffix(build), '+');
    assert BeforeBuild(raw) == Render(v);
    DenotedCore(v);
    if v.pre != [] {
      IdentifiersHaveNoDots(v.pre);
      SplitJoin(v.pre, '.');
    }
    if build != [] {
      IdentifiersHaveNoDots(build);
      SplitJoin(build, '.');
    }
    DecimalDenotes(v.major);
    DecimalDenotes(v.minor);
    DecimalDenotes(v.patch);
  }

  /** What a text denotes when its numbers must stay below a limit. */
  function Parse(raw: string, limit: nat): Option<SemVersion> {
    if Shaped(raw) && WellFormed(Meaning(raw)) && Below(Meaning(raw), limit) then Some(Meaning(raw)) else None
  }

  predicate Below(v: SemVersion, limit: nat) { v.major < limit && v.minor < limit && v.patch < limit }

  /** Cutting finds exactly the version a text denotes, so no text denotes two. */
  lemma ParseFindsWhatIsDenoted(raw: string, limit: nat, v: SemVersion)
    ensures Parse(raw, limit) == Some(v) <==> Denotes(raw, v) && Below(v, limit)
  {
    if Shaped(raw) {
      ShapedIsSpelled(raw);
    }
    if Denotes(raw, v) {
      var build :| Spelled(raw, v, build);
      SpelledIsShaped(raw, v, build);
    }
  }

  lemma ParseRender(v: SemVersion, limit: nat)
    requires WellFormed(v) && Below(v, limit)
    ensures Parse(Render(v), limit) == Some(v)
  {
    assert Spelled(Render(v), v, []);
    ParseFindsWhatIsDenoted(Render(v), limit, v);
  }
}
