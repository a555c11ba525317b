/**
 Release decisions made twice: by the portal's release check (internal/releasecheck/manager.go) and by
 the updater's gates (cmd/sub2api-limit-updater/release.go), and that they agree.
 */
module ReleaseAgreement {
  import opened Options
  import opened Text
  import opened SemverOrder
  import opened SemverText
  import PortalVersion
  import UpdaterSemver

  datatype Mode = Binary | Manual | Unsupported
  datatype Manifest = Manifest(schema: int, version: string, minUpdaterVersion: string, mode: Mode)

  /** What the portal reads in a text. */
  function PortalReads(value: string): Option<SemVersion> {
    Parse(PortalVersion.Bare(value), PortalVersion.INT_LIMIT)
  }

  /** What the updater reads in a text. */
  function UpdaterReads(value: string): Option<SemVersion> { Parse(value, UpdaterSemver.UINT64_LIMIT) }

  // ----- the two parsers

  lemma {:induction false} TrimKeeps(s: string)
    requires s == "" || (!IsSpace(s[0]) && !IsSpace(s[|s| - 1]))
    ensures TrimSpace(s) == s
  {
  }

  lemma RenderedEnds(v: SemVersion, build: seq<string>)
    requires WellFormed(v) && Identifiers(build)
    ensures var s := Render(v) + BuildSuffix(build);
            s != "" && IsDigit(s[0]) && !IsSpace(s[|s| - 1])
  {
    var s := Render(v) + BuildSuffix(build);
    DecimalDenotes(v.major);
    DecimalDenotes(v.patch);
    assert s[0] == Decimal(v.major)[0];
    if build != [] {
      JoinEnds(build);
    } else if v.pre != [] {
      JoinEnds(v.pre);
    }
  }

  lemma {:induction false} JoinEnds(parts: seq<string>)
    requires parts != [] && Identifiers(parts)
    ensures var s := Join(parts, '.'); s != "" && !IsSpace(s[|s| - 1])
  {
    assert Identifier(parts[0]);
    if |parts| > 1 {
      JoinEnds(parts[1..]);
    }
  }

  /** A text that denotes a version has no white space or v to strip. */
  lemma DenotedIsBare(raw: string, v: SemVersion)
    requires Denotes(raw, v)
    ensures PortalVersion.Bare(raw) == raw
  {
    var build :| Spelled(raw, v, build);
    RenderedEnds(v, build);
    TrimKeeps(raw);
  }

  /**
   The parsers agree: both read the same version in a text with nothing to strip whose numbers fit
   an int; the portal alone strips white space and a v, the updater alone takes larger numbers.
   */
  lemma ParsersAgree(raw: string, v: SemVersion)
    ensures PortalReads(raw) == Some(v) && PortalVersion.Bare(raw) == raw
        <==> UpdaterReads(raw) == Some(v) && Below(v, PortalVersion.INT_LIMIT)
    ensures PortalReads(raw) == Some(v) ==> UpdaterReads(PortalVersion.Bare(raw)) == Some(v)
  {
    var bare := PortalVersion.Bare(raw);
    ParseFindsWhatIsDenoted(bare, PortalVersion.INT_LIMIT, v);
    ParseFindsWhatIsDenoted(bare, UpdaterSemver.UINT64_LIMIT, v);
    ParseFindsWhatIsDenoted(raw, UpdaterSemver.UINT64_LIMIT, v);
    if Denotes(raw, v) {
      DenotedIsBare(raw, v);
    }
  }

  // ----- canonical versions

  /** canonicalVersion: "" for a text the portal cannot read. */
  function Canonical(raw: string): string {
    match PortalReads(raw) case None => "" case Some(v) => "v" + Render(v)
  }

  method CanonicalVersion(raw: string) returns (canonical: string)
    ensures canonical == Canonical(raw)
  {
    var parsed := PortalVersion.ParseVersion(raw);
    if parsed.None? {
      return "";
    }
    var p := parsed.value;
    var value := "v" + (Decimal(p.major) + "." + Decimal(p.minor) + "." + Decimal(p.patch));
    if p.preRelease != "" {
      value := value + ("-" + p.preRelease);
    }
    FormatIsRender(PortalReads(raw).value, value);
    return value;
  }

  lemma FormatIsRender(v: SemVersion, value: string)
    requires WellFormed(v)
    requires value == "v" + CoreText(v) + if PreText(v.pre) == "" then "" else "-" + PreText(v.pre)
    ensures value == "v" + Render(v)
  {
    PreTextNonempty(v);
  }

  lemma PreTextNonempty(v: SemVersion)
    requires WellFormed(v)
    ensures PreText(v.pre) == "" <==> v.pre == []
  {
    if v.pre != [] {
      JoinEnds(v.pre);
    }
  }

  lemma VRenderIsBare(v: SemVersion)
    requires WellFormed(v)
    ensures PortalVersion.Bare("v" + Render(v)) == Render(v) && TrimSpace("v" + Render(v)) == "v" + Render(v)
  {
    RenderedEnds(v, []);
    assert Render(v) + BuildSuffix([]) == Render(v);
    TrimKeeps("v" + Render(v));
  }

  /** Parsing a canonical version gives the same components, so making it canonical again changes nothing. */
  lemma CanonicalRoundTrip(raw: string)
    requires Canonical(raw) != ""
    ensures PortalReads(Canonical(raw)) == PortalReads(raw)
    ensures Canonical(Canonical(raw)) == Canonical(raw)
    ensures UpdaterReads(Canonical(raw)[1..]) == PortalReads(raw)
  {
    var v := PortalReads(raw).value;
    VRenderIsBare(v);
    ParseRender(v, PortalVersion.INT_LIMIT);
    ParseRender(v, UpdaterSemver.UINT64_LIMIT);
    assert ("v" + Render(v))[1..] == Render(v);
  }

  predicate StableTag(raw: string) {
    && raw != "" && raw[0] == 'v' && '+' !in raw
    && PortalReads(raw).Some? && PortalReads(raw).value.Stable()
  }

  /** stableReleaseVersion */
  method StableReleaseVersion(raw: string) returns (version: Option<string>)
    ensures version == if StableTag(raw) then Some(Canonical(raw)) else None
  {
    if raw == "" || raw[0] != 'v' {
      return None;
    }
    if '+' in raw {
      return None;
    }
    var parsed := PortalVersion.ParseVersion(raw);
    if parsed.None? {
      return None;
    }
    PreTextNonempty(PortalReads(raw).value);
    if parsed.value.preRelease != "" {
      return None;
    }
    var canonical := CanonicalVersion(raw);
    return Some(canonical);
  }

  lemma {:induction false} TrimKeepsOut(s: string, c: char)
    requires c !in s
    ensures c !in TrimSpace(s)
    decreases |s|
  {
    if s == [] {
    } else if IsSpace(s[0]) {
      assert forall x :: x in s[1..] ==> x in s;
      TrimKeepsOut(s[1..], c);
    } else if IsSpace(s[|s| - 1]) {
      assert forall x :: x in s[..|s| - 1] ==> x in s;
      TrimKeepsOut(s[..|s| - 1], c);
    }
  }

  lemma {:induction false} TrimKeepsFirst(s: string)
    requires s != "" && !IsSpace(s[0])
    ensures TrimSpace(s) != "" && TrimSpace(s)[0] == s[0]
    decreases |s|
  {
    if IsSpace(s[|s| - 1]) {
      TrimKeepsFirst(s[..|s| - 1]);
    }
  }

  lemma TrimmedTag(raw: string)
    requires raw != "" && raw[0] == 'v' && '+' !in raw
    ensures TrimSpace(raw) == "v" + PortalVersion.Bare(raw) && '+' !in PortalVersion.Bare(raw)
  {
    TrimKeepsFirst(raw);
    TrimKeepsOut(raw, '+');
    var t := TrimSpace(raw);
    assert forall x :: x in t[1..] ==> x in t;
  }

  /** On an accepted tag stableReleaseVersion is the tag without surrounding white space; it is the identity
      exactly when there is none. */
  lemma StableTagIsCanonical(raw: string)
    requires StableTag(raw)
    ensures Canonical(raw) == TrimSpace(raw)
    ensures Canonical(raw) == raw <==> TrimSpace(raw) == raw
  {
    var v := PortalReads(raw).value;
    var bare := PortalVersion.Bare(raw);
    ParseFindsWhatIsDenoted(bare, PortalVersion.INT_LIMIT, v);
    TrimmedTag(raw);
    var build :| Spelled(bare, v, build);
    PlusMarksBuild(bare, v, build);
    assert bare == Render(v);
  }

  lemma PlusMarksBuild(raw: string, v: SemVersion, build: seq<string>)
    requires Spelled(raw, v, build)
    ensures build != [] ==> '+' in raw
  {
    if build != [] {
      assert raw[|Render(v)|] == '+';
    }
  }

  lemma TrimDropsSpace(s: string)
    requires s != "" && !IsSpace(s[0]) && !IsSpace(s[|s| - 1])
    ensures TrimSpace(s + " ") == s
  {
    assert (s + " ")[..|s|] == s;
    TrimKeeps(s);
  }

  lemma TrimmedReads(tag: string, v: SemVersion)
    requires v.Stable() && Below(v, PortalVersion.INT_LIMIT) && TrimSpace(tag) == "v" + Render(v)
    ensures PortalReads(tag) == Some(v) && Canonical(tag) == "v" + Render(v)
  {
    assert PortalVersion.Bare(tag) == Render(v);
    ParseRender(v, PortalVersion.INT_LIMIT);
  }

  /** A tag with a trailing space is accepted, but is not its own canonical form. */
  lemma TrailingSpaceTag(v: SemVersion)
    requires v.Stable() && Below(v, PortalVersion.INT_LIMIT)
    ensures var tag := "v" + Render(v) + " ";
            StableTag(tag) && Canonical(tag) == "v" + Render(v) && Canonical(tag) != tag
  {
    var plain := "v" + Render(v);
    RenderedEnds(v, []);
    assert Render(v) + BuildSuffix([]) == Render(v);
    TrimDropsSpace(plain);
    TrimmedReads(plain + " ", v);
    DenotedRender(v);
    assert forall x :: x in plain + " " ==> x == 'v' || x == ' ' || x in Render(v);
  }

  // ----- the two verdicts

  datatype Gate = Proceed | UpToDate | ManualRequired | Rejected

  /** fetchLatest's checks of a release tag and its manifest. */
  predicate PortalAccepts(tag: string, m: Manifest) {
    && StableTag(tag)
    && m.schema == 1 && (m.mode.Binary? || m.mode.Manual?)
    && Canonical(m.version) != "" && MatchesRelease(m.version, Canonical(tag))
    && Canonical(m.minUpdaterVersion) != ""
  }

  function TrimV(s: string): string { if s != "" && s[0] == 'v' then s[1..] else s }

  /** manifestMatchesRelease */
  predicate MatchesRelease(manifestVersion: string, releaseVersion: string) {
    manifestVersion == TrimV(releaseVersion) && Canonical(manifestVersion) == releaseVersion
  }

  /** viewFromState's verdict on what fetchLatest stored: update available and compatible. */
  method ViewVerdict(latestVersion: string, minUpdaterVersion: string, mode: Mode, currentVersion: string)
    returns (available: bool, compatible: bool)
    ensures
      var current, latest, minimum := PortalReads(currentVersion), PortalReads(Canonical(latestVersion)), PortalReads(Canonical(minUpdaterVersion));
      && (available <==> current.Some? && latest.Some? && minimum.Some? && Precedes(current.value, latest.value))
      && (compatible <==> current.Some? && latest.Some? && minimum.Some? && mode.Binary? && !Precedes(current.value, minimum.value))
  {
    available, compatible := false, false;
    var latestText := CanonicalVersion(latestVersion);
    var minimumText := CanonicalVersion(minUpdaterVersion);
    var current := PortalVersion.ParseVersion(currentVersion);
    if current.None? {
      return;
    }
    var latest := PortalVersion.ParseVersion(latestText);
    var minimum := PortalVersion.ParseVersion(minimumText);
    if latest.Some? && minimum.Some? {
      MeantIsRead(current.value, PortalReads(currentVersion).value);
      MeantIsRead(latest.value, PortalReads(latestText).value);
      MeantIsRead(minimum.value, PortalReads(minimumText).value);
      PrecedesIsTotal(PortalReads(currentVersion).value, PortalReads(latestText).value, PortalReads(latestText).value);
      var newer := PortalVersion.AtLeast(latest.value, current.value);
      var same := PortalVersion.AtLeast(current.value, latest.value);
      available := newer && !same;
      var enough := PortalVersion.AtLeast(current.value, minimum.value);
      compatible := mode.Binary? && enough;
    }
  }

  lemma MeantIsRead(p: PortalVersion.Version, v: SemVersion)
    requires WellFormed(v) && p.major == v.major && p.minor == v.minor && p.patch == v.patch && p.preRelease == PreText(v.pre)
    ensures PortalVersion.Meant(p) == v
  {
    if v.pre != [] {
      PreTextNonempty(v);
      IdentifiersHaveNoDots(v.pre);
      SplitJoin(v.pre, '.');
    }
  }

  /** What both parsers and both comparators make of two texts. */
  method CompareBoth(left: string, right: string) returns (updater: Option<int>, portal: Option<bool>)
    ensures updater.Some? <==> UpdaterReads(left).Some? && UpdaterReads(right).Some?
    ensures portal.Some? <==> PortalReads(left).Some? && PortalReads(right).Some?
    // where all four readings succeed, the portal finds "at least" exactly when the updater finds "not less"
    ensures updater.Some? && portal.Some? ==> (portal.value <==> updater.value >= 0)
    ensures updater.Some? ==> (updater.value < 0 <==> Precedes(UpdaterReads(left).value, UpdaterReads(right).value))
  {
    updater, portal := None, None;
    var u := UpdaterSemver.ParseSemVersion(left);
    var v := UpdaterSemver.ParseSemVersion(right);
    if u.Some? && v.Some? {
      var c := UpdaterSemver.CompareSemVersion(u.value, v.value);
      updater := Some(c);
    }
    var p := PortalVersion.ParseVersion(left);
    var q := PortalVersion.ParseVersion(right);
    if p.Some? && q.Some? {
      MeantIsRead(p.value, PortalReads(left).value);
      MeantIsRead(q.value, PortalReads(right).value);
      var b := PortalVersion.AtLeast(p.value, q.value);
      portal := Some(b);
    }
    if u.Some? && v.Some? && p.Some? && q.Some? {
      SameReading(left, left);
      SameReading(right, right);
    }
  }

  /** A v-prefixed stable tag without build metadata. */
  predicate StableRelease(tag: string) {
    tag != "" && tag[0] == 'v' && '+' !in tag && UpdaterReads(tag[1..]).Some? && UpdaterReads(tag[1..]).value.Stable()
  }

  /** A readable manifest of that release. */
  predicate ManifestOf(tag: string, m: Manifest)
    requires tag != ""
  {
    && m.schema == 1 && (m.mode.Binary? || m.mode.Manual?)
    && UpdaterReads(m.version).Some? && '+' !in m.version && m.version == tag[1..]
    && UpdaterReads(m.minUpdaterVersion).Some?
  }

  /** What the updater must be able to read before its gates can decide. */
  predicate UpdaterAccepts(tag: string, m: Manifest, current: string) {
    UpdaterReads(current).Some? && StableRelease(tag) && ManifestOf(tag, m)
  }

  /** The version and mode gates of prepareUpdate, with downloads left out. */
  method UpdaterGates(current: string, requestedTarget: string, tag: string, m: Manifest) returns (g: Gate)
    // a development build or an unreadable version of its own is for the installer, whatever the release
    ensures current == "dev" || UpdaterReads(current).None? ==> g == ManualRequired
    // an unstable tag, or one that is not the requested target, is rejected
    ensures UpdaterReads(current).Some? && !(StableRelease(tag) && requestedTarget == tag) ==> g == Rejected
    // a release that is not newer is done with before its manifest is looked at
    ensures g == UpToDate <==>
              && UpdaterReads(current).Some? && StableRelease(tag) && requestedTarget == tag
              && !Precedes(UpdaterReads(current).value, UpdaterReads(tag[1..]).value)
    // a newer release whose manifest does not fit is rejected
    ensures (&& UpdaterReads(current).Some? && StableRelease(tag) && requestedTarget == tag
             && Precedes(UpdaterReads(current).value, UpdaterReads(tag[1..]).value)) ==> (g == Rejected <==> !ManifestOf(tag, m))
    // and one with a fitting manifest goes ahead exactly in mode binary with a sufficient updater
    ensures g == Proceed <==>
              && UpdaterReads(current).Some? && StableRelease(tag) && requestedTarget == tag && ManifestOf(tag, m)
              && Precedes(UpdaterReads(current).value, UpdaterReads(tag[1..]).value)
              && m.mode.Binary? && !Precedes(UpdaterReads(current).value, UpdaterReads(m.minUpdaterVersion).value)
    ensures UpdaterAccepts(tag, m, current) && requestedTarget == tag ==>
      var cur, target, minimum := UpdaterReads(current).value, UpdaterReads(tag[1..]).value, UpdaterReads(m.minUpdaterVersion).value;
      g == if !Precedes(cur, target) then UpToDate
           else if m.mode.Manual? || Precedes(cur, minimum) then ManualRequired else Proceed
    ensures g == Proceed ==> UpdaterAccepts(tag, m, current) && requestedTarget == tag
  {
    if current == "dev" {
      assert !IsDigit(current[0]);
      if UpdaterReads(current).Some? {
        ReadTextEnds(current);
      }
      return ManualRequired;
    }
    var cur := UpdaterSemver.ParseSemVersion(current);
    if cur.None? {
      return ManualRequired;
    }
    if tag == "" || tag[0] != 'v' || '+' in tag {
      return Rejected;
    }
    var targetVersion := tag[1..];
    var target := UpdaterSemver.ParseSemVersion(targetVersion);
    if target.None? || |target.value.pre| != 0 {
      return Rejected;
    }
    var requested := UpdaterSemver.ParseSemVersion(TrimV(requestedTarget));
    if requested.None? {
      return Rejected;
    }
    PrecedesIsTotal(target.value, cur.value, cur.value);
    var c := UpdaterSemver.CompareSemVersion(requested.value, target.value);
    if c != 0 || requestedTarget != tag {
      return Rejected;
    }
    c := UpdaterSemver.CompareSemVersion(target.value, cur.value);
    if c <= 0 {
      return UpToDate;
    }
    // parseManifest
    var manifestVersion := UpdaterSemver.ParseSemVersion(m.version);
    var minimum := UpdaterSemver.ParseSemVersion(m.minUpdaterVersion);
    if m.schema != 1 || manifestVersion.None? || '+' in m.version || minimum.None? || m.mode.Unsupported? {
      return Rejected;
    }
    if m.version != targetVersion {
      return Rejected;
    }
    if m.mode.Manual? {
      return ManualRequired;
    }
    c := UpdaterSemver.CompareSemVersion(cur.value, minimum.value);
    if c < 0 {
      return ManualRequired;
    }
    return Proceed;
  }

  lemma ReadTextEnds(raw: string)
    requires UpdaterReads(raw).Some?
    ensures raw != "" && IsDigit(raw[0]) && !IsSpace(raw[|raw| - 1])
  {
    var v := UpdaterReads(raw).value;
    ParseFindsWhatIsDenoted(raw, UpdaterSemver.UINT64_LIMIT, v);
    var build :| Spelled(raw, v, build);
    RenderedEnds(v, build);
  }

  /** The portal offers a release as available and compatible. */
  ghost predicate PortalOffers(tag: string, m: Manifest, current: string) {
    var cur, latest, minimum := PortalReads(Canonical(current)), PortalReads(Canonical(Canonical(tag))), PortalReads(Canonical(Canonical(m.minUpdaterVersion)));
    && cur.Some? && latest.Some? && minimum.Some?
    && Precedes(cur.value, latest.value) && m.mode.Binary? && !Precedes(cur.value, minimum.value)
  }

  /** The updater's gates let a release through. */
  ghost predicate GatesOpen(tag: string, m: Manifest, current: string)
    requires UpdaterAccepts(tag, m, current)
  {
    var cur, target, minimum := UpdaterReads(current).value, UpdaterReads(tag[1..]).value, UpdaterReads(m.minUpdaterVersion).value;
    Precedes(cur, target) && !m.mode.Manual? && !Precedes(cur, minimum)
  }

  /** On releases and installed versions both sides accept, the portal offers exactly what the updater installs,
      and the target the portal requests is the tag the updater insists on. */
  lemma VerdictsAgree(tag: string, m: Manifest, current: string)
    requires PortalAccepts(tag, m) && PortalReads(current).Some? && UpdaterAccepts(tag, m, current)
    ensures PortalOffers(tag, m, current) <==> GatesOpen(tag, m, current)
    ensures Canonical(tag) == tag
  {
    AcceptedTag(tag);
    StoredReading(tag);
    StoredReading(m.minUpdaterVersion);
    SameReading(tag[1..], tag);
    SameReading(m.minUpdaterVersion, m.minUpdaterVersion);
    SameReading(current, current);
    CanonicalRoundTrip(current);
  }

  /** A release as both sides meet it: the portal stores and shows it, its target is requested, and the updater's
      gates look at it again.  On what both sides accept, the offer stands exactly when the gates open. */
  method OfferAndGates(tag: string, m: Manifest, current: string) returns (offered: bool, gate: Gate)
    ensures PortalAccepts(tag, m) && PortalReads(current).Some? && UpdaterAccepts(tag, m, current) ==> (offered <==> gate == Proceed)
  {
    var stored := StableReleaseVersion(tag);
    offered := false;
    if stored.Some? {
      var minimum := CanonicalVersion(m.minUpdaterVersion);
      var installed := CanonicalVersion(current);
      var available, compatible := ViewVerdict(stored.value, minimum, m.mode, installed);
      offered := available && compatible;
    }
    gate := UpdaterGates(current, if stored.Some? then stored.value else tag, tag, m);
    if PortalAccepts(tag, m) && PortalReads(current).Some? && UpdaterAccepts(tag, m, current) {
      VerdictsAgree(tag, m, current);
    }
  }

  /** Storing a version in canonical form and making it canonical again for the view loses nothing. */
  lemma StoredReading(raw: string)
    requires Canonical(raw) != ""
    ensures PortalReads(Canonical(Canonical(raw))) == PortalReads(raw)
  {
    CanonicalRoundTrip(raw);
  }

  lemma AcceptedTag(tag: string)
    requires StableTag(tag) && UpdaterReads(tag[1..]).Some?
    ensures TrimSpace(tag) == tag && Canonical(tag) == tag && PortalVersion.Bare(tag) == tag[1..]
  {
    ReadTextEnds(tag[1..]);
    assert tag[|tag| - 1] == tag[1..][|tag| - 2];
    TrimKeeps(tag);
    StableTagIsCanonical(tag);
  }

  /** When both read a text, possibly with a v in front for the portal, they read the same version. */
  lemma SameReading(raw: string, tagged: string)
    requires UpdaterReads(raw).Some? && PortalReads(tagged).Some? && (tagged == raw || PortalVersion.Bare(tagged) == raw)
    ensures PortalReads(tagged) == UpdaterReads(raw)
  {
    var v := UpdaterReads(raw).value;
    ParseFindsWhatIsDenoted(raw, UpdaterSemver.UINT64_LIMIT, v);
    DenotedIsBare(raw, v);
  }
}
