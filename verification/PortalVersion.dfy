/** The portal's semantic versions: internal/sub2api/version.go. */
module PortalVersion {
  import opened Options
  import opened Text
  import opened SemverOrder
  import opened SemverText

  const INT_LIMIT: nat := 0x8000_0000_0000_0000

  datatype Version = Version(raw: string, major: nat, minor: nat, patch: nat, preRelease: string)

  /** The identifiers of a pre-release text. */
  function PreList(text: string): seq<string> { if text == "" then [] else Split(text, '.') }

  /** The version a parsed value stands for. */
  function Meant(v: Version): SemVersion {
    SemVersion(v.major, v.minor, v.patch, PreList(v.preRelease))
  }

  /** The text without surrounding white space and one leading v or V. */
  function Bare(value: string): string {
    var raw := TrimSpace(value);
    if raw != "" && (raw[0] == 'v' || raw[0] == 'V') then raw[1..] else raw
  }

  /** White space around a text, and one leading v or V, make no difference; nothing else is taken off. */
  lemma BareStrips(core: string)
    requires core != "" && !IsSpace(core[0]) && !IsSpace(core[|core| - 1]) && core[0] != 'v' && core[0] != 'V'
    ensures Bare(core) == core && Bare("v" + core) == core && Bare("V" + core) == core && Bare(" v" + core + " ") == core
    ensures Bare("vv" + core) == "v" + core
  {
    var tagged := "v" + core;
    assert TrimSpace(tagged) == tagged;
    SpaceIsTrimmed(tagged);
    assert " v" + core + " " == " " + tagged + " ";
    assert ("vv" + core)[1..] == "v" + core;
  }

  lemma SpaceIsTrimmed(s: string)
    requires s != "" && !IsSpace(s[0])
    ensures TrimSpace(" " + s + " ") == TrimSpace(s)
  {
    assert (" " + s + " ")[1..] == s + " ";
    assert (s + " ")[..|s|] == s && (s + " ")[|s|] == ' ';
    assert TrimSpace(s + " ") == TrimSpace(s);
  }

  /** strconv.Atoi: an optional sign and digits. */
  function Atoi(s: string): Option<int> {
    if s != "" && (s[0] == '-' || s[0] == '+') then
      if |s| > 1 && AllDigits(s[1..]) && Value(s[1..]) < INT_LIMIT
      then Some(if s[0] == '-' then -(Value(s[1..]) as int) else Value(s[1..])) else None
    else if s != "" && AllDigits(s) && Value(s) < INT_LIMIT then Some(Value(s)) else None
  }

  function IsNumericIdentifier(value: string): bool { value != "" && AllDigits(value) }

  method ValidateIdentifiers(value: string, rejectNumericLeadingZeros: bool) returns (ok: bool)
    ensures ok <==> forall p :: p in Split(value, '.') ==>
              Identifier(p) && (rejectNumericLeadingZeros ==> PreIdentifier(p))
  {
    if value == "" {
      assert "" in Split(value, '.');
      return false;
    }
    var identifiers := Split(value, '.');
    for i := 0 to |identifiers|
      invariant forall k :: 0 <= k < i ==>
                  Identifier(identifiers[k]) && (rejectNumericLeadingZeros ==> PreIdentifier(identifiers[k]))
    {
      var identifier := identifiers[i];
      assert identifier in Split(value, '.');
      if identifier == "" {
        return false;
      }
      for j := 0 to |identifier|
        invariant forall k :: 0 <= k < j ==> IdentifierChar(identifier[k])
      {
        var character := identifier[j];
        if !('a' <= character <= 'z' || 'A' <= character <= 'Z' || '0' <= character <= '9' || character == '-') {
          return false;
        }
      }
      if rejectNumericLeadingZeros && |identifier| > 1 && identifier[0] == '0' && IsNumericIdentifier(identifier) {
        return false;
      }
    }
    return true;
  }

  /** A numeral of a core that Atoi reads without a sign. */
  lemma AtoiReadsNumerals(part: string)
    requires part != "" && !(|part| > 1 && part[0] == '0') && '-' !in part && '+' !in part
    ensures Atoi(part).Some? <==> Numeral(part) && Value(part) < INT_LIMIT
    ensures Atoi(part).Some? ==> Atoi(part).value == Value(part)
  {
    assert part[0] in part;
  }

  lemma CoreHasNoSigns(raw: string)
    ensures '-' !in Core(raw) && '+' !in Core(raw)
  {
  }

  lemma PartsKeepOut(s: string, c: char)
    requires c !in s && c != '.'
    ensures forall p :: p in Split(s, '.') ==> c !in p
  {
    JoinSplit(s, '.');
    JoinedChars(Split(s, '.'), c);
  }

  lemma {:induction false} JoinedChars(parts: seq<string>, c: char)
    requires parts != [] && c != '.' && c !in Join(parts, '.')
    ensures forall p :: p in parts ==> c !in p
  {
    var j := Join(parts, '.');
    if |parts| > 1 {
      var rest := Join(parts[1..], '.');
      assert forall i :: 0 <= i < |rest| ==> rest[i] == j[|parts[0]| + 1 + i];
      JoinedChars(parts[1..], c);
      assert parts == [parts[0]] + parts[1..];
    }
    assert forall i :: 0 <= i < |parts[0]| ==> parts[0][i] == j[i];
  }

  predicate PreTextOk(bare: string) {
    match After(BeforeBuild(bare), '-')
    case None => true
    case Some(text) => text != "" && forall p :: p in Split(text, '.') ==> PreIdentifier(p)
  }

  predicate BuildTextOk(bare: string) {
    After(bare, '+').Some? ==> Dotted(After(bare, '+').value)
  }

  predicate CoreOk(core: string) {
    var parts := Split(core, '.');
    |parts| == 3 && forall i :: 0 <= i < 3 ==> Numeral(parts[i]) && Value(parts[i]) < INT_LIMIT
  }

  lemma ParseByPieces(bare: string)
    ensures Parse(bare, INT_LIMIT).Some? <==> BuildTextOk(bare) && PreTextOk(bare) && CoreOk(Core(bare))
    ensures Parse(bare, INT_LIMIT).Some? ==>
              var parts := Split(Core(bare), '.');
              Parse(bare, INT_LIMIT).value == SemVersion(Value(parts[0]), Value(parts[1]), Value(parts[2]), PreParts(bare))
  {
    assert "" in Split("", '.');
    var parts := Split(Core(bare), '.');
    if CoreOk(Core(bare)) {
      assert forall p :: p in parts ==> Numeral(p);
    }
    if ThreeNumerals(Core(bare)) {
      assert forall i :: 0 <= i < 3 ==> parts[i] in parts;
    }
  }

  /** The end of ParseVersion: the three numbers of a core. */
  method ParseCore(core: string) returns (numbers: Option<seq<nat>>)
    requires '-' !in core && '+' !in core
    ensures numbers.Some? <==> CoreOk(core)
    ensures numbers.Some? ==> var parts := Split(core, '.');
              numbers.value == [Value(parts[0]), Value(parts[1]), Value(parts[2])]
  {
    PartsKeepOut(core, '-');
    PartsKeepOut(core, '+');
    var parts := Split(core, '.');
    if |parts| != 3 {
      return None;
    }
    var values := new nat[3](i => 0);
    for i := 0 to 3
      invariant forall k :: 0 <= k < i ==> Numeral(parts[k]) && values[k] == Value(parts[k]) < INT_LIMIT
    {
      var part := parts[i];
      assert part in parts;
      if part == "" || (|part| > 1 && part[0] == '0') {
        return None;
      }
      AtoiReadsNumerals(part);
      var number := Atoi(part);
      if number.None? || number.value < 0 {
        return None;
      }
      values[i] := number.value;
    }
    return Some(values[..]);
  }

  /** ParseVersion after the leading v: cut off the build text, then the pre-release text, then read the core. */
  method ParseBare(bare: string) returns (numbers: Option<seq<nat>>, preRelease: string)
    ensures numbers.Some? <==> BuildTextOk(bare) && PreTextOk(bare) && CoreOk(Core(bare))
    ensures numbers.Some? ==>
              var parts := Split(Core(bare), '.');
              numbers.value == [Value(parts[0]), Value(parts[1]), Value(parts[2])] &&
              preRelease == PreText(PreParts(bare))
  {
    var core := bare;
    preRelease := "";
    CoreHasNoSigns(bare);
    var buildIndex := Index(core, '+');
    if buildIndex < |core| {
      var ok := ValidateIdentifiers(core[buildIndex + 1..], false);
      if !ok {
        return None, preRelease;
      }
      core := core[..buildIndex];
    }
    assert core == BeforeBuild(bare);
    var ok: bool;
    ok, core, preRelease := CutPreRelease(bare, core);
    if !ok {
      return None, preRelease;
    }
    numbers := ParseCore(core);
  }

  /** The pre-release text, if there is one, and what is left before it. */
  method CutPreRelease(ghost bare: string, core: string) returns (ok: bool, rest: string, preRelease: string)
    requires core == BeforeBuild(bare)
    ensures ok <==> PreTextOk(bare)
    ensures ok ==> rest == Core(bare) && preRelease == PreText(PreParts(bare))
  {
    var preIndex := Index(core, '-');
    if preIndex == |core| {
      return true, core, "";
    }
    preRelease := core[preIndex + 1..];
    rest := core[..preIndex];
    if preRelease == "" {
      return false, rest, preRelease;
    }
    ok := ValidateIdentifiers(preRelease, true);
    JoinSplit(preRelease, '.');
  }

  /** ParseVersion accepts exactly the texts whose bare form denotes a version with int-sized numbers. */
  method ParseVersion(value: string) returns (version: Option<Version>)
    ensures match Parse(Bare(value), INT_LIMIT)
            case None => version.None?
            case Some(v) => version == Some(Version(TrimSpace(value), v.major, v.minor, v.patch, PreText(v.pre)))
  {
    var raw := TrimSpace(value);
    if raw == "" {
      assert "" in Split(Core(""), '.');
      return None;
    }
    var core := raw;
    if core[0] == 'v' || core[0] == 'V' {
      core := core[1..];
    }
    ParseByPieces(core);
    var numbers, preRelease := ParseBare(core);
    if numbers.None? {
      return None;
    }
    return Some(Version(raw, numbers.value[0], numbers.value[1], numbers.value[2], preRelease));
  }

  predicate PreIdentifiers(parts: seq<string>) { forall p :: p in parts ==> PreIdentifier(p) }

  /** The body of comparePrerelease's loop for two different identifiers. */
  function CompareIdentifier(left: string, right: string): int {
    var leftNumeric := IsNumericIdentifier(left);
    var rightNumeric := IsNumericIdentifier(right);
    if leftNumeric && rightNumeric then
      if |left| != |right| then (if |left| < |right| then -1 else 1)
      else if TextLess(left, right) then -1 else 1
    else if leftNumeric then -1
    else if rightNumeric then 1
    else if TextLess(left, right) then -1 else 1
  }

  lemma CompareIdentifierIsOrder(a: string, b: string)
    requires PreIdentifier(a) && PreIdentifier(b) && a != b
    ensures CompareIdentifier(a, b) == if IdentifierBefore(a, b) then -1 else 1
  {
    if Numeric(a) && Numeric(b) {
      NumeralOrder(a, b);
    }
  }

  lemma SameListSameText(left: string, right: string)
    ensures PreList(left) == PreList(right) && (left == "" <==> right == "") ==> left == right
  {
    JoinSplit(left, '.');
    JoinSplit(right, '.');
  }

  /** comparePrerelease is sections 11.3 and 11.4 on pre-release texts the parser can return. */
  method ComparePrerelease(left: string, right: string) returns (c: int)
    ensures PreIdentifiers(PreList(left)) && PreIdentifiers(PreList(right)) ==>
              c == if PreBefore(PreList(left), PreList(right)) then -1 else if left == right then 0 else 1
  {
    ghost var wellFormed := PreIdentifiers(PreList(left)) && PreIdentifiers(PreList(right));
    if wellFormed {
      ListTrichotomy(PreList(left), PreList(right));
    }
    if left == right {
      return 0;
    }
    if left == "" {
      return 1;
    }
    if right == "" {
      return -1;
    }
    SameListSameText(left, right);
    var leftParts := Split(left, '.');
    var rightParts := Split(right, '.');
    var i := 0;
    while i < |leftParts| && i < |rightParts|
      invariant i <= |leftParts| && i <= |rightParts| && leftParts[..i] == rightParts[..i]
    {
      if leftParts[i] != rightParts[i] {
        c := CompareIdentifier(leftParts[i], rightParts[i]);
        if wellFormed {
          CompareIdentifierIsOrder(leftParts[i], rightParts[i]);
          IdentifierTrichotomy(leftParts[i], rightParts[i]);
          assert ListSplitsAt(leftParts, rightParts, i) || ListSplitsAt(rightParts, leftParts, i);
        }
        return;
      }
      i := i + 1;
    }
    c := if |leftParts| < |rightParts| then -1 else 1;
    assert c == -1 ==> ListSplitsAt(leftParts, rightParts, i);
    assert c == 1 ==> |rightParts| < |leftParts| && ListSplitsAt(rightParts, leftParts, i);
  }

  /** AtLeast is the order of section 11 on versions the parser can return. */
  method AtLeast(v: Version, minimum: Version) returns (atLeast: bool)
    ensures WellFormed(Meant(v)) && WellFormed(Meant(minimum)) ==> atLeast == !Precedes(Meant(v), Meant(minimum))
  {
    var left := [v.major, v.minor, v.patch];
    var right := [minimum.major, minimum.minor, minimum.patch];
    for i := 0 to 3
      invariant left[..i] == right[..i]
    {
      if left[i] != right[i] {
        assert i > 0 ==> left[..i][0] == right[..i][0];
        assert i > 1 ==> left[..i][1] == right[..i][1];
        return left[i] > right[i];
      }
    }
    assert left == left[..3] == right[..3] == right;
    assert left[0] == right[0] && left[1] == right[1] && left[2] == right[2];
    var c := ComparePrerelease(v.preRelease, minimum.preRelease);
    return c >= 0;
  }
}
