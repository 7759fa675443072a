// The version-policy engine: which policy governs a tool (tool override, then
// the first bundle that lists it with a policy, then the source default), how
// version strings are read, and the update decision table.

module VersionPolicyEngine {
  import opened Text
  import AppTypes

  type VersionPolicy = AppTypes.VersionPolicy

  // ---------------------------------------------------------------------
  // Decisions.

  datatype UpdateDecision = Update | SkipMajor | Pinned | UpToDate | Unknown

  /** `has_update`: a newer version exists, whether or not the policy lets it through. */
  predicate HasUpdate(d: UpdateDecision) {
    d == Update || d == SkipMajor
  }

  // ---------------------------------------------------------------------
  // Version strings.

  /** A version as `major.minor.patch`; pre-release and build parts are not kept. */
  datatype Version = Version(major: nat, minor: nat, patch: nat)

  /** Version order: lexicographic on (major, minor, patch). */
  predicate VersionLe(a: Version, b: Version) {
    a.major < b.major
    || (a.major == b.major && (a.minor < b.minor || (a.minor == b.minor && a.patch <= b.patch)))
  }

  const U64Limit: nat := 0x1_0000_0000_0000_0000

  predicate AllDigits(s: string) {
    forall i :: 0 <= i < |s| ==> IsDigit(s[i])
  }

  /** The number a string of decimal digits denotes. */
  function DigitsValue(s: string): nat
    requires AllDigits(s)
  {
    if |s| == 0 then 0
    else DigitsValue(s[..|s| - 1]) * 10 + (s[|s| - 1] as int - '0' as int)
  }

  /** `str::parse::<u64>`: an optional `+`, then at least one digit, and no overflow. */
  function ParseU64(s: string): (r: Option<nat>)
    ensures r.Some? ==> r.value < U64Limit
    ensures r.Some? ==> exists d :: (s == d || s == "+" + d) && |d| > 0 && AllDigits(d) && r.value == DigitsValue(d)
  {
    var d := if |s| > 0 && s[0] == '+' then s[1..] else s;
    if |d| > 0 && AllDigits(d) && DigitsValue(d) < U64Limit then
      assert s == d || s == "+" + d;
      Some(DigitsValue(d))
    else None
  }

  /** A numeric identifier as semantic versioning writes it: digits, no leading zero. */
  predicate CanonicalNumber(s: string) {
    |s| > 0 && AllDigits(s) && (s[0] == '0' ==> |s| == 1) && DigitsValue(s) < U64Limit
  }

  /** `semver::Version::parse` on its plain form `N.N.N`; every other form is not read here. */
  function PlainSemver(s: string): (r: Option<Version>)
    ensures r.Some? ==> |Split(s, '.')| == 3
  {
    var parts := Split(s, '.');
    if |parts| == 3 && CanonicalNumber(parts[0]) && CanonicalNumber(parts[1]) && CanonicalNumber(parts[2]) then
      Some(Version(DigitsValue(parts[0]), DigitsValue(parts[1]), DigitsValue(parts[2])))
    else None
  }

  /** The prefix stripping of `parse_version`: a `v` is looked for after trimming, a `V` only
      on the untrimmed string, and without a prefix the untrimmed string is used. */
  function Cleaned(version: string): string {
    var t := Trim(version);
    if StartsWith(t, "v") then t[1..]
    else if StartsWith(version, "V") then version[1..]
    else version
  }

  /** The fallback reading: three or more dot-separated parts give their first three numbers,
      with a `-` or `+` suffix dropped from the patch; two parts give `major.minor.0`. */
  function Fallback(cleaned: string): (r: Option<Version>)
    ensures |Split(cleaned, '.')| < 2 ==> r == None
  {
    var parts := Split(cleaned, '.');
    if |parts| >= 3 then
      var patch := Before(Before(parts[2], '-'), '+');
      match (ParseU64(parts[0]), ParseU64(parts[1]), ParseU64(patch))
      case (Some(major), Some(minor), Some(p)) => Some(Version(major, minor, p))
      case _ => None
    else if |parts| == 2 then
      match (ParseU64(parts[0]), ParseU64(parts[1]))
      case (Some(major), Some(minor)) => Some(Version(major, minor, 0))
      case _ => None
    else None
  }

  /** `parse_version`. */
  function ParseVersion(version: string): Option<Version> {
    var cleaned := Cleaned(version);
    match PlainSemver(cleaned)
    case Some(v) => Some(v)
    case None => Fallback(cleaned)
  }

  /** Whatever the plain semantic-version reading accepts, the fallback reads the same way, so
      the strict parser matters only for the pre-release forms this model does not keep. */
  lemma PlainSemverAgreesWithFallback(s: string)
    requires PlainSemver(s).Some?
    ensures Fallback(s) == PlainSemver(s)
  {
    var parts := Split(s, '.');
    assert '-' !in parts[2] && '+' !in parts[2];
    forall k | 0 <= k < 3
      ensures ParseU64(parts[k]) == Some(DigitsValue(parts[k]))
    {
      assert IsDigit(parts[k][0]);
    }
  }

  /** A string with fewer than two dot-separated parts and no plain semantic-version form is
      not a version. */
  lemma SinglePartIsNoVersion(version: string)
    requires |Split(Cleaned(version), '.')| < 2
    ensures ParseVersion(version) == None
  {
  }

  // ---------------------------------------------------------------------
  // The decision table.

  /** `should_update`. */
  function ShouldUpdate(current: Option<string>, available: Option<string>, policy: VersionPolicy): UpdateDecision {
    if policy == AppTypes.Pinned then Pinned
    else if current.None? || available.None? then Unknown
    else
      var c := current.value;
      var a := available.value;
      if c == a then UpToDate
      else
        match (ParseVersion(c), ParseVersion(a))
        case (Some(curr), Some(avail)) =>
          if VersionLe(avail, curr) then UpToDate
          else
            (match policy
             case Latest => Update
             case Stable => if avail.major > curr.major then SkipMajor else Update
             case Pinned => Pinned)
        case _ =>
          match policy
          case Latest => Update
          case Stable => Update
          case Pinned => Pinned
  }

  /** The table row by row: a pinned tool is always pinned; a missing version is unknown;
      equal strings are up to date; two readable versions decide by order and, under
      `Stable`, by the major number; two strings that are not both readable are an update. */
  lemma ShouldUpdateSpec(current: Option<string>, available: Option<string>, policy: VersionPolicy)
    ensures policy == AppTypes.Pinned ==> ShouldUpdate(current, available, policy) == Pinned
    ensures policy != AppTypes.Pinned && (current.None? || available.None?) ==>
      ShouldUpdate(current, available, policy) == Unknown
    ensures policy != AppTypes.Pinned && current.Some? && current == available ==>
      ShouldUpdate(current, available, policy) == UpToDate
    ensures policy != AppTypes.Pinned && current.Some? && available.Some? && current != available ==>
      var d := ShouldUpdate(current, available, policy);
      match (ParseVersion(current.value), ParseVersion(available.value))
      case (Some(curr), Some(avail)) =>
        && (VersionLe(avail, curr) ==> d == UpToDate)
        && (!VersionLe(avail, curr) && policy == AppTypes.Latest ==> d == Update)
        && (!VersionLe(avail, curr) && policy == AppTypes.Stable ==> (d == SkipMajor <==> avail.major > curr.major))
        && (!VersionLe(avail, curr) ==> HasUpdate(d))
      case _ => d == Update
  {
  }

  /** An update is reported exactly when the tool is not pinned, both versions are known and
      differ, and, when both are readable, the available one is strictly newer. */
  lemma HasUpdateIff(current: Option<string>, available: Option<string>, policy: VersionPolicy)
    ensures HasUpdate(ShouldUpdate(current, available, policy)) <==>
      (policy != AppTypes.Pinned && current.Some? && available.Some? && current != available
       && (ParseVersion(current.value).Some? && ParseVersion(available.value).Some? ==>
             !VersionLe(ParseVersion(available.value).value, ParseVersion(current.value).value)))
  {
  }

  /** `Stable` never lets a major bump through as a plain update. */
  lemma StableHoldsBackMajor(current: string, available: string)
    requires ParseVersion(current).Some? && ParseVersion(available).Some?
    requires ParseVersion(available).value.major > ParseVersion(current).value.major
    ensures ShouldUpdate(Some(current), Some(available), AppTypes.Stable) != Update
  {
  }

  // ---------------------------------------------------------------------
  // Change classification.

  datatype VersionChange = Major | Minor | Patch | UnknownChange

  function ChangeLabel(c: VersionChange): string {
    match c
    case Major => "major"
    case Minor => "minor"
    case Patch => "patch"
    case UnknownChange => "update"
  }

  /** `classify_change`: major, then minor, then patch is compared for "greater" on its own. */
  function ClassifyChange(current: Option<string>, available: Option<string>): VersionChange {
    if current.None? || available.None? then UnknownChange
    else
      match (ParseVersion(current.value), ParseVersion(available.value))
      case (Some(curr), Some(avail)) =>
        if avail.major > curr.major then Major
        else if avail.minor > curr.minor then Minor
        else if avail.patch > curr.patch then Patch
        else UnknownChange
      case _ => UnknownChange
  }

  /** For a strictly newer version the classification names the first component that changed;
      an older or equal version, a missing side or an unreadable side gives no classification
      other than what the component tests say. */
  lemma ClassifyNewer(current: string, available: string)
    requires ParseVersion(current).Some? && ParseVersion(available).Some?
    requires !VersionLe(ParseVersion(available).value, ParseVersion(current).value)
    ensures var curr := ParseVersion(current).value;
      var avail := ParseVersion(available).value;
      var c := ClassifyChange(Some(current), Some(available));
      && (c == Major <==> avail.major != curr.major)
      && (c == Minor <==> avail.major == curr.major && avail.minor != curr.minor)
      && (c == Patch <==> avail.major == curr.major && avail.minor == curr.minor)
  {
  }

  lemma ClassifyUnknownWithoutBoth(current: Option<string>, available: Option<string>)
    requires current.None? || available.None?
      || ParseVersion(current.value).None? || ParseVersion(available.value).None?
    ensures ClassifyChange(current, available) == UnknownChange
  {
  }

  /** The components are compared one by one, not the versions as a whole: going from 2.0.0
      back to 1.5.0 is classified as a minor change. */
  lemma ClassifyIgnoresOrder(curr: Version, avail: Version, current: string, available: string)
    requires curr == Version(2, 0, 0) && avail == Version(1, 5, 0)
    requires ParseVersion(current) == Some(curr) && ParseVersion(available) == Some(avail)
    ensures VersionLe(avail, curr)
    ensures ClassifyChange(Some(current), Some(available)) == Minor
  {
  }

  // ---------------------------------------------------------------------
  // Policy resolution.

  /** Where a tool's policy comes from. */
  datatype PolicyOrigin = ToolOverride | FromBundle(index: nat) | SourceDefault

  predicate GovernsTool(b: AppTypes.Bundle, name: string) {
    name in b.tools && b.versionPolicy.Some?
  }

  /** The first bundle in list order that lists the tool and carries a policy. */
  function FirstGoverning(bundles: seq<AppTypes.Bundle>, name: string): (r: Option<nat>)
    ensures r.Some? ==> r.value < |bundles| && GovernsTool(bundles[r.value], name)
    ensures r.Some? ==> forall j :: 0 <= j < r.value ==> !GovernsTool(bundles[j], name)
    ensures r.None? ==> forall j :: 0 <= j < |bundles| ==> !GovernsTool(bundles[j], name)
  {
    if |bundles| == 0 then None
    else if GovernsTool(bundles[0], name) then Some(0)
    else match FirstGoverning(bundles[1..], name)
      case Some(i) => Some(i + 1)
      case None => None
  }

  function Origin(tool: AppTypes.Tool, bundles: seq<AppTypes.Bundle>): (o: PolicyOrigin)
    ensures o.FromBundle? ==> o.index < |bundles|
  {
    if tool.versionPolicy.Some? then ToolOverride
    else match FirstGoverning(bundles, tool.name)
      case Some(i) => FromBundle(i)
      case None => SourceDefault
  }

  /** The policy of the first bundle that lists `name` with a policy, as the loop of
      `resolve_policy` finds it. */
  function BundlePolicy(bundles: seq<AppTypes.Bundle>, name: string): Option<VersionPolicy> {
    if |bundles| == 0 then None
    else if name in bundles[0].tools && bundles[0].versionPolicy.Some? then bundles[0].versionPolicy
    else BundlePolicy(bundles[1..], name)
  }

  /** The name of that bundle, as the loop of `policy_source` finds it. */
  function BundleName(bundles: seq<AppTypes.Bundle>, name: string): Option<string> {
    if |bundles| == 0 then None
    else if name in bundles[0].tools && bundles[0].versionPolicy.Some? then Some(bundles[0].name)
    else BundleName(bundles[1..], name)
  }

  /** `resolve_policy`; the source default from the configuration is a parameter. */
  function ResolvePolicy(tool: AppTypes.Tool, bundles: seq<AppTypes.Bundle>,
                         policyForSource: string -> VersionPolicy): VersionPolicy {
    if tool.versionPolicy.Some? then tool.versionPolicy.value
    else match BundlePolicy(bundles, tool.name)
      case Some(p) => p
      case None => policyForSource(tool.source)
  }

  /** `policy_source`; `configured` holds the source names the configuration has a policy for. */
  function PolicySource(tool: AppTypes.Tool, bundles: seq<AppTypes.Bundle>, configured: set<string>): string {
    if tool.versionPolicy.Some? then "tool override"
    else match BundleName(bundles, tool.name)
      case Some(n) => "bundle: " + n
      case None => if Lower(tool.source) in configured then tool.source + " default" else "global default"
  }

  lemma {:induction false} BundleSearchesAgree(bundles: seq<AppTypes.Bundle>, name: string)
    ensures match FirstGoverning(bundles, name)
      case Some(i) => BundlePolicy(bundles, name) == bundles[i].versionPolicy
                      && BundleName(bundles, name) == Some(bundles[i].name)
      case None => BundlePolicy(bundles, name).None? && BundleName(bundles, name).None?
  {
    if |bundles| > 0 && !GovernsTool(bundles[0], name) {
      BundleSearchesAgree(bundles[1..], name);
    }
  }

  /** The cascade: the tool's own policy wins, then the first governing bundle, then the
      source default; and `policy_source` reports that same branch and that same bundle. */
  lemma ResolveAndSourceAgree(tool: AppTypes.Tool, bundles: seq<AppTypes.Bundle>,
                              policyForSource: string -> VersionPolicy, configured: set<string>)
    ensures match Origin(tool, bundles)
      case ToolOverride =>
        ResolvePolicy(tool, bundles, policyForSource) == tool.versionPolicy.value
        && PolicySource(tool, bundles, configured) == "tool override"
      case FromBundle(i) =>
        ResolvePolicy(tool, bundles, policyForSource) == bundles[i].versionPolicy.value
        && PolicySource(tool, bundles, configured) == "bundle: " + bundles[i].name
      case SourceDefault =>
        ResolvePolicy(tool, bundles, policyForSource) == policyForSource(tool.source)
        && PolicySource(tool, bundles, configured)
           == (if Lower(tool.source) in configured then tool.source + " default" else "global default")
  {
    BundleSearchesAgree(bundles, tool.name);
  }

  /** A bundle earlier in the list wins over a later one. */
  lemma EarlierBundleWins(tool: AppTypes.Tool, bundles: seq<AppTypes.Bundle>, i: nat, j: nat,
                          policyForSource: string -> VersionPolicy)
    requires tool.versionPolicy.None?
    requires i < j < |bundles| && GovernsTool(bundles[i], tool.name) && GovernsTool(bundles[j], tool.name)
    ensures Origin(tool, bundles) != FromBundle(j)
  {
  }

  // ---------------------------------------------------------------------
  // Worked cases.

  lemma SplitOne(s: string, head: string, rest: string)
    requires |head| == 1 && head[0] != '.' && s == head + "." + rest
    ensures Split(s, '.') == [head] + Split(rest, '.')
  {
    assert s[1] == '.';
    assert IndexOf(s, '.') == 1;
    assert s[..1] == head && s[2..] == rest;
  }

  /** `d.d.d` with single digits. */
  predicate DigitTriple(x: string) {
    |x| == 5 && IsDigit(x[0]) && x[1] == '.' && IsDigit(x[2]) && x[3] == '.' && IsDigit(x[4])
  }

  function DigitOf(c: char): nat
    requires IsDigit(c)
  {
    c as int - '0' as int
  }

  function TripleOf(x: string): Version
    requires DigitTriple(x)
  {
    Version(DigitOf(x[0]), DigitOf(x[2]), DigitOf(x[4]))
  }

  lemma PlainTriple(x: string)
    requires DigitTriple(x)
    ensures PlainSemver(x) == Some(TripleOf(x))
  {
    SplitOne(x, x[..1], x[2..]);
    SplitOne(x[2..], x[2..3], x[4..]);
    assert x[2..][2..] == x[4..];
    assert Split(x[4..], '.') == [x[4..]];
    assert DigitsValue(x[..1]) == DigitOf(x[0]) by { assert x[..1][..0] == ""; }
    assert DigitsValue(x[2..3]) == DigitOf(x[2]) by { assert x[2..3][..0] == ""; }
    assert DigitsValue(x[4..]) == DigitOf(x[4]) by { assert x[4..][..0] == ""; }
  }

  lemma ReadsTriple(s: string)
    requires DigitTriple(Cleaned(s))
    ensures ParseVersion(s) == Some(TripleOf(Cleaned(s)))
  {
    PlainTriple(Cleaned(s));
  }

  lemma TrimKeeps(s: string)
    requires |s| > 0 && !IsWhitespace(s[0]) && !IsWhitespace(s[|s| - 1])
    ensures Trim(s) == s
  {
  }

  /** A plain triple is its own cleaned form. */
  lemma CleanedTriple(s: string)
    requires DigitTriple(s)
    ensures Cleaned(s) == s
  {
    TrimKeeps(s);
  }

  lemma ReadsPlain(a: string)
    requires a == "1.2.3"
    ensures ParseVersion(a) == Some(Version(1, 2, 3))
  {
    CleanedTriple(a);
    ReadsTriple(a);
  }

  lemma ReadsLowerV(b: string)
    requires b == "v1.2.3"
    ensures ParseVersion(b) == Some(Version(1, 2, 3))
  {
    TrimKeeps(b);
    assert b[1..] == "1.2.3";
    ReadsTriple(b);
  }

  lemma ReadsUpperV(c: string)
    requires c == "V1.2.3"
    ensures ParseVersion(c) == Some(Version(1, 2, 3))
  {
    TrimKeeps(c);
    assert c[1..] == "1.2.3";
    ReadsTriple(c);
  }

  lemma ReadsTwoParts(x: string)
    requires x == "1.2"
    ensures ParseVersion(x) == Some(Version(1, 2, 0))
  {
    TrimKeeps(x);
    assert Cleaned(x) == x;
    SplitOne(x, "1", "2");
    assert Split("2", '.') == ["2"];
    assert DigitsValue("1") == 1 && DigitsValue("2") == 2;
  }

  /** `before(c)` stops at the first `c`. */
  lemma BeforeAt(d: string, rest: string, c: char)
    requires c !in d && |rest| > 0 && rest[0] == c
    ensures Before(d + rest, c) == d
  {
    var s := d + rest;
    assert s[|d|] == c;
    assert s[..|d|] == d;
  }

  lemma DigitsWithout(d: string, c: char)
    requires AllDigits(d) && !IsDigit(c)
    ensures c !in d
  {
  }

  /** Text before the first `c`, when the prefix `d` holds no `c`. */
  lemma BeforeAfterPrefix(d: string, rest: string, c: char)
    requires c !in d
    ensures Before(d + rest, c) == d + Before(rest, c)
  {
    var s := d + rest;
    if c in rest {
      var k := IndexOf(rest, c);
      assert s[|d| + k] == c;
      assert s[..|d| + k] == d + rest[..k];
    } else {
      assert c !in s by {
        assert forall i :: 0 <= i < |s| ==> s[i] == (if i < |d| then d[i] else rest[i - |d|]);
      }
      assert s == d + rest;
    }
  }

  /** A patch part made of digits and then nothing, or a `-` or `+` suffix, loses the suffix. */
  lemma PatchSuffixDropped(d: string, rest: string)
    requires AllDigits(d)
    requires rest == "" || rest[0] == '-' || rest[0] == '+'
    ensures Before(Before(d + rest, '-'), '+') == d
  {
    DigitsWithout(d, '-');
    DigitsWithout(d, '+');
    if rest == "" {
      assert d + rest == d;
    } else if rest[0] == '-' {
      BeforeAt(d, rest, '-');
    } else {
      var r := Before(rest, '-');
      assert |r| > 0 && r[0] == '+';
      BeforeAfterPrefix(d, rest, '-');
      BeforeAt(d, r, '+');
    }
  }

  predicate Number(s: string) {
    |s| > 0 && AllDigits(s) && DigitsValue(s) < U64Limit
  }

  lemma ParseNumber(s: string)
    requires Number(s)
    ensures ParseU64(s) == Some(DigitsValue(s))
  {
    assert IsDigit(s[0]);
  }

  /** With three or more parts, the fallback keeps the first three numbers and drops both
      the extra parts and a `-`/`+` suffix of the patch ("1.2.3.4" and "1.2.3-rc.1" are 1.2.3). */
  lemma FallbackKeepsThree(x: string, patch: string, rest: string)
    requires |Split(x, '.')| >= 3
    requires Number(Split(x, '.')[0]) && Number(Split(x, '.')[1])
    requires Number(patch) && Split(x, '.')[2] == patch + rest
    requires rest == "" || rest[0] == '-' || rest[0] == '+'
    ensures Fallback(x) == Some(Version(DigitsValue(Split(x, '.')[0]), DigitsValue(Split(x, '.')[1]), DigitsValue(patch)))
  {
    var parts := Split(x, '.');
    PatchSuffixDropped(patch, rest);
    ParseNumber(parts[0]);
    ParseNumber(parts[1]);
    ParseNumber(patch);
  }

  /** 1.0.0 against 2.0.0: an update under `Latest`, held back under `Stable`, pinned under
      `Pinned`, and a major change. */
  lemma MajorBumpExample(c: string, a: string)
    requires c != a
    requires ParseVersion(c) == Some(Version(1, 0, 0)) && ParseVersion(a) == Some(Version(2, 0, 0))
    ensures ShouldUpdate(Some(c), Some(a), AppTypes.Latest) == Update
    ensures ShouldUpdate(Some(c), Some(a), AppTypes.Stable) == SkipMajor
    ensures ShouldUpdate(Some(c), Some(a), AppTypes.Pinned) == Pinned
    ensures ClassifyChange(Some(c), Some(a)) == Major
  {
  }

  /** 1.0.0 against 1.1.0: an update under `Stable` and a minor change. */
  lemma MinorBumpExample(c: string, a: string)
    requires c != a
    requires ParseVersion(c) == Some(Version(1, 0, 0)) && ParseVersion(a) == Some(Version(1, 1, 0))
    ensures ShouldUpdate(Some(c), Some(a), AppTypes.Stable) == Update
    ensures ClassifyChange(Some(c), Some(a)) == Minor
  {
  }
}
