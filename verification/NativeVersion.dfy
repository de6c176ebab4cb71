/**
  Native build numbers derived from a release version: the iOS build number keeps the
  precedence order of Semantic Versioning 2.0.0, and no two packages share an F-Droid
  version code.
*/
module NativeVersion {
  import opened Options
  import opened Decimal

  datatype Version = Version(major: nat, minor: nat, patch: nat, beta: Option<nat>)

  datatype Native = Native(appVersion: string, androidVersionCode: nat, iosBuildNumber: string)

  datatype Result<T> =
    | Ok(value: T) | UnsupportedVersion | NotCollisionFree | BetaOutOfRange | CodeOutOfRange | BuildOutOfRange

  const STABLE_IOS_BUILD_SLOT := 999
  const MAX_SAFE_INTEGER := 9_007_199_254_740_991
  const MAX_ANDROID_VERSION_CODE := 2_100_000_000
  const FDROID_ABI_VERSION_CODE_SUFFIXES := [("armeabi-v7a", 1), ("arm64-v8a", 2), ("x86", 3), ("x86_64", 4)]

  // ---------------------------------------------------------------- the text

  // `^(\d+)\.(\d+)\.(\d+)(?:-beta\.(\d+))?$`
  function Parse(text: string): Option<Version> {
    var cut := SplitAt(text, '-');
    var triple := Triple(if cut.None? then text else cut.value.0);
    if triple.None? then None
    else
      var (a, b, c) := triple.value;
      if cut.None? then Some(Version(Value(a), Value(b), Value(c), None))
      else
        var tail := cut.value.1;
        if "beta." <= tail && Digits(tail[5..]) then Some(Version(Value(a), Value(b), Value(c), Some(Value(tail[5..]))))
        else None
  }

  function PrintTriple(v: Version): string { Print(v.major) + "." + Print(v.minor) + "." + Print(v.patch) }

  function Show(v: Version): string {
    if v.beta.None? then PrintTriple(v) else PrintTriple(v) + "-beta." + Print(v.beta.value)
  }

  lemma TripleShown(v: Version)
    ensures Triple(PrintTriple(v)) == Some((Print(v.major), Print(v.minor), Print(v.patch)))
    ensures '-' !in PrintTriple(v)
  {
    ReadPrinted(v.major);
    ReadPrinted(v.minor);
    ReadPrinted(v.patch);
    TripleJoined(Print(v.major), Print(v.minor), Print(v.patch));
    NotADigit(Print(v.major), '-');
    NotADigit(Print(v.minor), '-');
    NotADigit(Print(v.patch), '-');
  }

  lemma BetaShown(v: Version)
    requires v.beta.Some?
    ensures var tail := "beta." + Print(v.beta.value);
            SplitAt(Show(v), '-') == Some((PrintTriple(v), tail)) && "beta." <= tail && tail[5..] == Print(v.beta.value)
  {
    var t, tail := PrintTriple(v), "beta." + Print(v.beta.value);
    TripleShown(v);
    assert Show(v) == t + ['-'] + tail;
    SplitJoined(t, '-', tail);
    assert tail[5..] == Print(v.beta.value) && tail[..5] == "beta.";
  }

  // Every version is read from some text.
  lemma ParseShown(v: Version)
    ensures Parse(Show(v)) == Some(v)
  {
    ReadPrinted(v.major);
    ReadPrinted(v.minor);
    ReadPrinted(v.patch);
    TripleShown(v);
    if v.beta.Some? {
      ReadPrinted(v.beta.value);
      BetaShown(v);
    }
  }

  // `s` is a version written with the numerals `a`, `b`, `c` and, for a beta, `n`.
  ghost predicate Written(s: string, a: string, b: string, c: string, n: Option<string>) {
    && Digits(a) && Digits(b) && Digits(c) && (n.Some? ==> Digits(n.value))
    && s == a + "." + b + "." + c + (if n.Some? then "-beta." + n.value else "")
  }

  ghost predicate Reads(s: string, v: Version) {
    exists a, b, c, n :: Written(s, a, b, c, n)
      && v == Version(Value(a), Value(b), Value(c), if n.Some? then Some(Value(n.value)) else None)
  }

  lemma TripleParts(s: string)
    requires Triple(s).Some?
    ensures var (a, b, c) := Triple(s).value; Digits(a) && Digits(b) && Digits(c) && s == a + "." + b + "." + c
  {
  }

  lemma WrittenIsParsed(s: string, a: string, b: string, c: string, n: Option<string>)
    requires Written(s, a, b, c, n)
    ensures Parse(s) == Some(Version(Value(a), Value(b), Value(c), if n.Some? then Some(Value(n.value)) else None))
  {
    var t := a + "." + b + "." + c;
    TripleJoined(a, b, c);
    NotADigit(a, '-');
    NotADigit(b, '-');
    NotADigit(c, '-');
    if n.Some? {
      var tail := "beta." + n.value;
      assert s == t + ['-'] + tail;
      SplitJoined(t, '-', tail);
      assert tail[5..] == n.value && tail[..5] == "beta.";
    } else {
      assert s == t;
    }
  }

  lemma ParsedParts(s: string)
    requires Parse(s).Some?
    ensures var cut := SplitAt(s, '-');
            if cut.None? then Triple(s).Some?
            else Triple(cut.value.0).Some? && "beta." <= cut.value.1 && Digits(cut.value.1[5..])
    ensures var cut := SplitAt(s, '-');
            var (a, b, c) := if cut.None? then Triple(s).value else Triple(cut.value.0).value;
            Parse(s).value ==
              Version(Value(a), Value(b), Value(c), if cut.None? then None else Some(Value(cut.value.1[5..])))
  {
  }

  lemma ParsedIsWritten(s: string) returns (a: string, b: string, c: string, n: Option<string>)
    requires Parse(s).Some?
    ensures Written(s, a, b, c, n)
    ensures Parse(s).value == Version(Value(a), Value(b), Value(c), if n.Some? then Some(Value(n.value)) else None)
  {
    ParsedParts(s);
    var cut := SplitAt(s, '-');
    var t := if cut.None? then s else cut.value.0;
    TripleParts(t);
    a, b, c := Triple(t).value.0, Triple(t).value.1, Triple(t).value.2;
    if cut.None? {
      n := None;
      assert s == t + "";
    } else {
      n := Some(cut.value.1[5..]);
      BetaTail(t, cut.value.1);
    }
  }

  lemma BetaTail(t: string, tail: string)
    requires "beta." <= tail
    ensures t + ['-'] + tail == t + ("-beta." + tail[5..])
  {
    assert tail == "beta." + tail[5..];
  }

  // A text is read as a version if and only if it is the three numerals with, for a
  // beta, a fourth behind `-beta.`; the numerals may have leading zeros.
  lemma ParseExactly(s: string, v: Version)
    ensures Parse(s) == Some(v) <==> Reads(s, v)
  {
    if Parse(s) == Some(v) { var a, b, c, n := ParsedIsWritten(s); }
    if Reads(s, v) {
      var a, b, c, n :| Written(s, a, b, c, n)
        && v == Version(Value(a), Value(b), Value(c), if n.Some? then Some(Value(n.value)) else None);
      WrittenIsParsed(s, a, b, c, n);
    }
  }

  // ------------------------------------------------------------ the encoding

  function VersionCode(v: Version): nat { v.major * 1_000_000 + v.minor * 1_000 + v.patch }

  function BuildNumber(v: Version): nat {
    VersionCode(v) * 1_000 + if v.beta.None? then STABLE_IOS_BUILD_SLOT else v.beta.value
  }

  function Derive(v: Version): Result<Native> {
    var code := VersionCode(v);
    if v.minor > 999 || v.patch > 999 then NotCollisionFree
    else if v.beta.Some? && (v.beta.value < 1 || v.beta.value >= STABLE_IOS_BUILD_SLOT) then BetaOutOfRange
    else if code > MAX_SAFE_INTEGER || code <= 0 || code * 10 + 9 > MAX_ANDROID_VERSION_CODE then CodeOutOfRange
    else if BuildNumber(v) > MAX_SAFE_INTEGER then BuildOutOfRange
    else Ok(Native(PrintTriple(v), code, Print(BuildNumber(v))))
  }

  function GetNativeReleaseVersion(text: string): Result<Native> {
    var v := Parse(text);
    if v.None? then UnsupportedVersion else Derive(v.value)
  }

  predicate Accepted(v: Version) { Derive(v).Ok? }

  // The build number that a store compares.
  function IosBuild(v: Version): nat
    requires Accepted(v)
  {
    ReadPrinted(BuildNumber(v));
    Value(Derive(v).value.iosBuildNumber)
  }

  function FdroidCode(code: nat, i: nat): nat
    requires i < |FDROID_ABI_VERSION_CODE_SUFFIXES|
  {
    code * 10 + FDROID_ABI_VERSION_CODE_SUFFIXES[i].1
  }

  // One version code for each ABI, in the order of the table.
  function FdroidCodes(code: nat): seq<(string, nat)> {
    var suffixes := FDROID_ABI_VERSION_CODE_SUFFIXES;
    seq(|suffixes|, i requires 0 <= i < |suffixes| => (suffixes[i].0, FdroidCode(code, i)))
  }

  function GetFdroidVersionCodes(text: string): Result<seq<(string, nat)>> {
    match GetNativeReleaseVersion(text)
    case Ok(native) => Ok(FdroidCodes(native.androidVersionCode))
    case UnsupportedVersion => UnsupportedVersion
    case NotCollisionFree => NotCollisionFree
    case BetaOutOfRange => BetaOutOfRange
    case CodeOutOfRange => CodeOutOfRange
    case BuildOutOfRange => BuildOutOfRange
  }

  // ------------------------------ precedence, section 11 of Semantic Versioning 2.0.0

  datatype Identifier = Numeric(value: nat) | Alphanumeric(text: string)

  predicate TextBefore(a: string, b: string) {
    if b == "" then false
    else if a == "" then true
    else a[0] < b[0] || (a[0] == b[0] && TextBefore(a[1..], b[1..]))
  }

  predicate IdentifierBefore(a: Identifier, b: Identifier) {
    match (a, b)
    case (Numeric(x), Numeric(y)) => x < y
    case (Numeric(x), Alphanumeric(y)) => true
    case (Alphanumeric(x), Numeric(y)) => false
    case (Alphanumeric(x), Alphanumeric(y)) => TextBefore(x, y)
  }

  // A shorter list of identifiers comes first when all of its identifiers are equal.
  predicate PrereleaseBefore(a: seq<Identifier>, b: seq<Identifier>) {
    if b == [] then false
    else if a == [] then true
    else IdentifierBefore(a[0], b[0]) || (a[0] == b[0] && PrereleaseBefore(a[1..], b[1..]))
  }

  function Prerelease(v: Version): seq<Identifier> {
    if v.beta.None? then [] else [Alphanumeric("beta"), Numeric(v.beta.value)]
  }

  // A version without a pre-release comes after all of its pre-releases.
  predicate Precedes(v: Version, w: Version) {
    || v.major < w.major
    || (v.major == w.major && v.minor < w.minor)
    || (v.major == w.major && v.minor == w.minor && v.patch < w.patch)
    || (v.major == w.major && v.minor == w.minor && v.patch == w.patch && Prerelease(v) != []
        && (Prerelease(w) == [] || PrereleaseBefore(Prerelease(v), Prerelease(w))))
  }

  // ------------------------------------------------------------------ theorems

  // The guard on the build number is dead code: an accepted code is far below it.
  lemma BuildGuardNeverFires(v: Version)
    ensures Derive(v) != BuildOutOfRange && Derive(v) != UnsupportedVersion
    ensures Derive(v) == NotCollisionFree <==> v.minor >= 1000 || v.patch >= 1000
    ensures Derive(v) == BetaOutOfRange <==>
              v.minor < 1000 && v.patch < 1000 && v.beta.Some? && !(1 <= v.beta.value < 999)
    ensures Accepted(v) <==>
              && v.minor < 1000 && v.patch < 1000 && (v.beta.Some? ==> 1 <= v.beta.value < 999)
              && 0 < v.major * 1_000_000 + v.minor * 1_000 + v.patch <= 209_999_999
  {
  }

  lemma {:induction false} TextNotBeforeItself(a: string)
    ensures !TextBefore(a, a)
  {
    if a != "" { TextNotBeforeItself(a[1..]); }
  }

  lemma NumericOrder(name: string, m: nat, n: nat)
    ensures PrereleaseBefore([Alphanumeric(name), Numeric(m)], [Alphanumeric(name), Numeric(n)]) <==> m < n
  {
    TextNotBeforeItself(name);
    var a, b := [Alphanumeric(name), Numeric(m)], [Alphanumeric(name), Numeric(n)];
    assert a[1..] == [Numeric(m)] && b[1..] == [Numeric(n)] && [Numeric(m)][1..] == [] && [Numeric(n)][1..] == [];
    assert PrereleaseBefore([Numeric(m)], [Numeric(n)]) <==> m < n;
  }

  predicate TripleBefore(v: Version, w: Version) {
    v.major < w.major || (v.major == w.major && (v.minor < w.minor || (v.minor == w.minor && v.patch < w.patch)))
  }

  predicate SameTriple(v: Version, w: Version) { v.major == w.major && v.minor == w.minor && v.patch == w.patch }

  lemma CodeOrder(v: Version, w: Version)
    requires v.minor <= 999 && v.patch <= 999 && w.minor <= 999 && w.patch <= 999
    ensures VersionCode(v) < VersionCode(w) <==> TripleBefore(v, w)
    ensures VersionCode(v) == VersionCode(w) <==> SameTriple(v, w)
  {
  }

  lemma PrecedesExactly(v: Version, w: Version)
    ensures Precedes(v, w) <==>
            TripleBefore(v, w) || (SameTriple(v, w) && v.beta.Some? && (w.beta.Some? ==> v.beta.value < w.beta.value))
  {
    if v.beta.Some? && w.beta.Some? { NumericOrder("beta", v.beta.value, w.beta.value); }
  }

  lemma IosBuildIs(v: Version)
    requires Accepted(v)
    ensures IosBuild(v) == BuildNumber(v)
  {
    ReadPrinted(BuildNumber(v));
  }

  // The build number is an order embedding, so no two versions share one.
  lemma BuildOrderIsPrecedence(v: Version, w: Version)
    requires Accepted(v) && Accepted(w)
    ensures IosBuild(v) < IosBuild(w) <==> Precedes(v, w)
    ensures IosBuild(v) == IosBuild(w) <==> v == w
  {
    CodeOrder(v, w);
    PrecedesExactly(v, w);
    IosBuildIs(v);
    IosBuildIs(w);
  }

  // Two F-Droid packages share a version code only if they are the same release
  // triple for the same ABI, and every code is within Android's limit.
  lemma FdroidCodesAreUnique(v: Version, w: Version, i: nat, j: nat)
    requires Accepted(v) && Accepted(w)
    requires i < |FDROID_ABI_VERSION_CODE_SUFFIXES| && j < |FDROID_ABI_VERSION_CODE_SUFFIXES|
    ensures FdroidCode(VersionCode(v), i) == FdroidCode(VersionCode(w), j) <==>
              i == j && SameTriple(v, w)
    ensures FdroidCode(VersionCode(v), i) <= MAX_ANDROID_VERSION_CODE
  {
    CodeOrder(v, w);
    SuffixIsIndex(i);
    SuffixIsIndex(j);
  }

  lemma SuffixIsIndex(i: nat)
    requires i < |FDROID_ABI_VERSION_CODE_SUFFIXES|
    ensures FDROID_ABI_VERSION_CODE_SUFFIXES[i].1 == i + 1
  {
  }

  lemma ShownIsDerived(v: Version)
    requires Accepted(v)
    ensures GetNativeReleaseVersion(Show(v)) == Ok(Native(PrintTriple(v), VersionCode(v), Print(BuildNumber(v))))
  {
    ParseShown(v);
  }

  // What is shipped for an accepted version: the release triple as the name, one code
  // for all builds of the triple, and the build number.
  lemma ShippedNative(v: Version)
    requires Accepted(v)
    ensures var native := GetNativeReleaseVersion(Show(v));
            && native.Ok?
            && Parse(native.value.appVersion) == Some(Version(v.major, v.minor, v.patch, None))
            && native.value.androidVersionCode == v.major * 1_000_000 + v.minor * 1_000 + v.patch
    ensures IosBuild(v) == 1_000 * (v.major * 1_000_000 + v.minor * 1_000 + v.patch)
                           + if v.beta.Some? then v.beta.value else 999
  {
    ShownIsDerived(v);
    var triple := Version(v.major, v.minor, v.patch, None);
    ParseShown(triple);
    assert Show(triple) == PrintTriple(v);
    IosBuildIs(v);
  }

  lemma FourCodes(code: nat)
    ensures FdroidCodes(code) ==
              [("armeabi-v7a", 10 * code + 1), ("arm64-v8a", 10 * code + 2), ("x86", 10 * code + 3),
               ("x86_64", 10 * code + 4)]
  {
    assert |FDROID_ABI_VERSION_CODE_SUFFIXES| == 4;
  }

  // And for any text a code for each of the four ABIs, or the same error.
  lemma ShippedCodes(text: string)
    ensures match GetNativeReleaseVersion(text) {
              case Ok(native) =>
                var c := 10 * native.androidVersionCode;
                GetFdroidVersionCodes(text) ==
                  Ok([("armeabi-v7a", c + 1), ("arm64-v8a", c + 2), ("x86", c + 3), ("x86_64", c + 4)])
              case UnsupportedVersion => GetFdroidVersionCodes(text).UnsupportedVersion?
              case NotCollisionFree => GetFdroidVersionCodes(text).NotCollisionFree?
              case BetaOutOfRange => GetFdroidVersionCodes(text).BetaOutOfRange?
              case CodeOutOfRange => GetFdroidVersionCodes(text).CodeOutOfRange?
              case BuildOutOfRange => GetFdroidVersionCodes(text).BuildOutOfRange?
            }
  {
    match GetNativeReleaseVersion(text) {
      case Ok(native) => FourCodes(native.androidVersionCode);
      case _ =>
    }
  }
}
