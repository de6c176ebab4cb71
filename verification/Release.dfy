/**
  Which Paseito version the next release gets, and what a whole history of checks
  issues when every decision is written back as the recorded and source version.
*/
module Release {
  import opened Options
  import opened Decimal

  // ---------------------------------------------------------------- versions

  datatype Base = Base(major: nat, minor: nat, patch: nat)

  datatype Version = Version(base: Base, revision: nat)

  const MARK := "-paseito."

  function ShowBase(b: Base): string { Print(b.major) + "." + Print(b.minor) + "." + Print(b.patch) }

  function Tag(b: Base): string { "v" + ShowBase(b) }

  function Show(v: Version): string { ShowBase(v.base) + MARK + Print(v.revision) }

  function ParseBase(s: string): Option<Base> {
    var t := Triple(s);
    if t.None? then None
    else
      var (a, b, c) := t.value;
      if Canonical(a) && Canonical(b) && Canonical(c) then Some(Base(Value(a), Value(b), Value(c))) else None
  }

  // `STABLE_TAG`
  function ParseTag(s: string): Option<Base> {
    if s != "" && s[0] == 'v' then ParseBase(s[1..]) else None
  }

  // `PASEITO_VERSION`
  function ParseVersion(s: string): Option<Version> {
    var cut := SplitAt(s, '-');
    if cut.None? then None
    else
      var base, tail := ParseBase(cut.value.0), cut.value.1;
      if base.Some? && MARK[1..] <= tail && Canonical(tail[|MARK| - 1..]) && Value(tail[|MARK| - 1..]) > 0
      then Some(Version(base.value, Value(tail[|MARK| - 1..]))) else None
  }

  lemma BaseRoundTrip(b: Base)
    ensures ParseBase(ShowBase(b)) == Some(b) && '-' !in ShowBase(b)
  {
    ReadPrinted(b.major);
    ReadPrinted(b.minor);
    ReadPrinted(b.patch);
    TripleJoined(Print(b.major), Print(b.minor), Print(b.patch));
    NotADigit(Print(b.major), '-');
    NotADigit(Print(b.minor), '-');
    NotADigit(Print(b.patch), '-');
  }

  lemma ShownBase(s: string)
    requires ParseBase(s).Some?
    ensures ShowBase(ParseBase(s).value) == s
  {
    var (a, b, c) := Triple(s).value;
    PrintRead(a);
    PrintRead(b);
    PrintRead(c);
    TripleIs(s);
  }

  lemma TripleIs(s: string)
    requires Triple(s).Some?
    ensures var (a, b, c) := Triple(s).value; s == a + "." + b + "." + c
  {
  }

  // A tag and its base determine each other.
  lemma TagRoundTrip(b: Base, s: string)
    ensures ParseTag(Tag(b)) == Some(b)
    ensures ParseTag(s) == Some(b) <==> s == Tag(b)
  {
    BaseRoundTrip(b);
    assert Tag(b)[1..] == ShowBase(b);
    if ParseTag(s) == Some(b) {
      ShownBase(s[1..]);
      assert s == [s[0]] + s[1..];
    }
  }

  lemma ShownIsRead(v: Version)
    requires v.revision > 0
    ensures ParseVersion(Show(v)) == Some(v)
  {
    BaseRoundTrip(v.base);
    ReadPrinted(v.revision);
    var tail := MARK[1..] + Print(v.revision);
    assert Show(v) == ShowBase(v.base) + ['-'] + tail;
    SplitJoined(ShowBase(v.base), '-', tail);
    assert tail[|MARK| - 1..] == Print(v.revision);
  }

  lemma TailIsShown(revision: nat, tail: string)
    requires MARK[1..] <= tail && Canonical(tail[|MARK| - 1..]) && Value(tail[|MARK| - 1..]) == revision
    ensures tail == MARK[1..] + Print(revision)
  {
    PrintRead(tail[|MARK| - 1..]);
    assert tail == MARK[1..] + tail[|MARK| - 1..];
  }

  lemma PartsAreShown(v: Version, base: string, tail: string)
    requires base == ShowBase(v.base) && tail == MARK[1..] + Print(v.revision)
    ensures base + ['-'] + tail == Show(v)
  {
    assert ['-'] + MARK[1..] == MARK;
  }

  lemma ReadIsShown(v: Version, s: string)
    requires ParseVersion(s) == Some(v)
    ensures s == Show(v)
  {
    var (base, tail) := SplitAt(s, '-').value;
    ShownBase(base);
    TailIsShown(v.revision, tail);
    PartsAreShown(v, base, tail);
  }

  // Printing then reading gives the version back, and only printed texts are read.
  lemma VersionRoundTrip(v: Version, s: string)
    requires v.revision > 0
    ensures ParseVersion(Show(v)) == Some(v)
    ensures ParseVersion(s) == Some(v) <==> s == Show(v)
  {
    ShownIsRead(v);
    if ParseVersion(s) == Some(v) { ReadIsShown(v, s); }
  }

  // ------------------------------------------------------------ one decision

  datatype Decision =
    | Decision(needsRelease: bool, tag: string, version: string)
    | UnsafeTag
    | UnsafeSource
    | UnsafeCandidate

  function Max(a: int, b: int): int { if a < b then b else a }

  // A full match that also starts with this base.
  function RevisionOf(version: string, base: string): Option<nat> {
    var v := ParseVersion(version);
    if v.Some? && base + MARK <= version then Some(v.value.revision) else None
  }

  // A version text of the base has its revision, any other text ranks below all.
  function Rank(revision: Option<nat>): int { if revision.Some? then revision.value else -1 }

  function OrZero(r: Option<nat>): nat { if r.Some? then r.value else 0 }

  datatype Pick = Revised(revision: nat) | Kept | Refused

  // The choice on an unchanged tag, from the revisions that the texts have; `None` in
  // the outer option is a text that was not given. `max` keeps the first of equals.
  function PickRevision(force: bool, recorded: Option<nat>, candidate: Option<Option<nat>>,
                        source: Option<Option<nat>>): Pick {
    var best :=
      if candidate.None? then source
      else if source.None? || Rank(candidate.value) >= Rank(source.value) then candidate
      else source;
    var mine := if source.Some? then OrZero(source.value) else 0;
    if best.Some? && best.value.None? then Refused
    else if best.Some? && best.value.value > OrZero(recorded) then Revised(Max(best.value.value, mine + 1))
    else if !force then Kept
    else Revised(Max(OrZero(recorded), mine) + 1)
  }

  function RevisionIn(text: Option<string>, base: string): Option<Option<nat>> {
    if text.None? then None else Some(RevisionOf(text.value, base))
  }

  function DecideRelease(upstreamTag: string, recordedTag: string, recordedVersion: string, force: bool,
                         candidate: Option<string>, source: Option<string>): Decision {
    if ParseTag(upstreamTag).None? then UnsafeTag
    else if source.Some? && ParseVersion(source.value).None? then UnsafeSource
    else
      var base := upstreamTag[1..];
      var mine := RevisionIn(source, base);
      if upstreamTag != recordedTag then
        var next := if mine.Some? && mine.value.Some? then mine.value.value + 1 else 1;
        Decision(true, upstreamTag, base + MARK + Print(next))
      else
        match PickRevision(force, RevisionOf(recordedVersion, base), RevisionIn(candidate, base), mine)
        case Refused => UnsafeCandidate
        case Kept => Decision(false, upstreamTag, recordedVersion)
        case Revised(revision) => Decision(true, upstreamTag, base + MARK + Print(revision))
  }

  lemma PrefixIsBase(a: string, b: string, rest: string)
    requires '-' !in a && '-' !in b
    ensures a + MARK <= b + MARK + rest <==> a == b
  {
    var s, tail := b + MARK + rest, MARK[1..];
    if a + MARK <= s {
      var more := tail + s[|a| + |MARK|..];
      assert s == a + ['-'] + more && s == b + ['-'] + (tail + rest);
      SplitJoined(a, '-', more);
      SplitJoined(b, '-', tail + rest);
    }
  }

  // The two textual tests together single out the versions of one base.
  lemma RevisionOfBase(text: string, b: Base)
    ensures RevisionOf(text, ShowBase(b)) ==
              var v := ParseVersion(text); if v.Some? && v.value.base == b then Some(v.value.revision) else None
  {
    var v := ParseVersion(text);
    if v.Some? {
      VersionRoundTrip(v.value, text);
      BaseRoundTrip(b);
      BaseRoundTrip(v.value.base);
      PrefixIsBase(ShowBase(b), ShowBase(v.value.base), Print(v.value.revision));
    }
  }

  // The least revision above the recorded one and the source's, and not below the
  // candidate's.
  lemma PickIsLeast(force: bool, recorded: Option<nat>, candidate: Option<Option<nat>>, source: Option<Option<nat>>)
    requires candidate.Some? && candidate.value.Some? ==> candidate.value.value > 0
    requires source.Some? && source.value.Some? ==> source.value.value > 0
    ensures var p := PickRevision(force, recorded, candidate, source);
            var mine := if source.Some? then OrZero(source.value) else 0;
            var theirs := if candidate.Some? then OrZero(candidate.value) else 0;
            && (p.Revised? ==> p.revision == Max(OrZero(recorded), Max(mine, theirs - 1)) + 1)
            && (p.Refused? <==> (candidate.Some? || source.Some?) && mine == theirs == 0)
            && (p.Revised? <==> !p.Refused? && (force || Max(mine, theirs) > OrZero(recorded)))
  {
  }

  // The revision of a version text of this base, 0 when there is none.
  function Revision(text: Option<string>, b: Base): nat {
    if text.None? then 0
    else var v := ParseVersion(text.value); if v.Some? && v.value.base == b then v.value.revision else 0
  }

  lemma RevisionInBase(text: Option<string>, b: Base)
    ensures var r := RevisionIn(text, ShowBase(b));
            && (if r.Some? then OrZero(r.value) else 0) == Revision(text, b)
            && (r.Some? <==> text.Some?) && (r.Some? && r.value.Some? ==> r.value.value > 0)
  {
    if text.Some? { RevisionOfBase(text.value, b); }
  }

  // The rule on numbers. A release gets the least revision that is above the recorded
  // one and the source's and not below the candidate's; a changed tag ignores what
  // was recorded.
  function Rule(b: Base, changed: bool, force: bool, given: bool, recorded: nat, mine: nat, theirs: nat,
                kept: string): Decision {
    if changed then Decision(true, Tag(b), Show(Version(b, mine + 1)))
    else if given && mine == theirs == 0 then UnsafeCandidate
    else if force || Max(mine, theirs) > recorded then
      Decision(true, Tag(b), Show(Version(b, Max(recorded, Max(mine, theirs - 1)) + 1)))
    else Decision(false, Tag(b), kept)
  }

  lemma PickFollowsRule(b: Base, base: string, force: bool, recorded: Option<nat>, candidate: Option<Option<nat>>,
                        source: Option<Option<nat>>, kept: string)
    requires base == ShowBase(b)
    requires candidate.Some? && candidate.value.Some? ==> candidate.value.value > 0
    requires source.Some? && source.value.Some? ==> source.value.value > 0
    ensures var mine := if source.Some? then OrZero(source.value) else 0;
            var theirs := if candidate.Some? then OrZero(candidate.value) else 0;
            Rule(b, false, force, candidate.Some? || source.Some?, OrZero(recorded), mine, theirs, kept) ==
              match PickRevision(force, recorded, candidate, source)
              case Refused => UnsafeCandidate
              case Kept => Decision(false, Tag(b), kept)
              case Revised(revision) => Decision(true, Tag(b), base + MARK + Print(revision))
  {
  }

  // The textual decision follows the rule on numbers.
  lemma ChangedIsNext(b: Base, tag: string, recordedTag: string, recordedVersion: string, force: bool,
                      candidate: Option<string>, source: Option<string>)
    requires tag != recordedTag && ParseTag(tag).Some? && tag[1..] == ShowBase(b)
    requires source.Some? ==> ParseVersion(source.value).Some?
    ensures DecideRelease(tag, recordedTag, recordedVersion, force, candidate, source) ==
              Decision(true, tag, ShowBase(b) + MARK + Print(Revision(source, b) + 1))
  {
    RevisionInBase(source, b);
  }

  lemma DecisionFollowsRule(b: Base, recordedTag: string, recordedVersion: string, force: bool,
                            candidate: Option<string>, source: Option<string>)
    requires source.Some? ==> ParseVersion(source.value).Some?
    ensures DecideRelease(Tag(b), recordedTag, recordedVersion, force, candidate, source) ==
              Rule(b, Tag(b) != recordedTag, force, candidate.Some? || source.Some?,
                   Revision(Some(recordedVersion), b), Revision(source, b), Revision(candidate, b), recordedVersion)
  {
    var base := ShowBase(b);
    assert ParseTag(Tag(b)).Some? && Tag(b)[1..] == base by { TagRoundTrip(b, Tag(b)); }
    RevisionInBase(Some(recordedVersion), b);
    RevisionInBase(source, b);
    RevisionInBase(candidate, b);
    var r, c, m := RevisionOf(recordedVersion, base), RevisionIn(candidate, base), RevisionIn(source, base);
    if Tag(b) == recordedTag {
      PickFollowsRule(b, base, force, r, c, m, recordedVersion);
    } else {
      ChangedIsNext(b, Tag(b), recordedTag, recordedVersion, force, candidate, source);
    }
  }

  ghost predicate IsTag(s: string) { exists b :: s == Tag(b) }

  ghost predicate IsVersion(s: string) { exists v: Version :: v.revision > 0 && s == Show(v) }

  lemma TagsAreShown(tag: string)
    ensures ParseTag(tag).Some? <==> IsTag(tag)
  {
    if ParseTag(tag).Some? { TagRoundTrip(ParseTag(tag).value, tag); }
    forall b | tag == Tag(b) ensures ParseTag(tag).Some? { TagRoundTrip(b, tag); }
  }

  lemma VersionsAreShown(text: string)
    ensures ParseVersion(text).Some? <==> IsVersion(text)
  {
    if ParseVersion(text).Some? { VersionRoundTrip(ParseVersion(text).value, text); }
    forall v: Version | v.revision > 0 && text == Show(v) ensures ParseVersion(text).Some? {
      VersionRoundTrip(v, text);
    }
  }

  lemma InputErrors(tag: string, recordedTag: string, recordedVersion: string, force: bool,
                    candidate: Option<string>, source: Option<string>)
    ensures var d := DecideRelease(tag, recordedTag, recordedVersion, force, candidate, source);
            && (d.UnsafeTag? <==> ParseTag(tag).None?)
            && (d.UnsafeSource? <==> !d.UnsafeTag? && source.Some? && ParseVersion(source.value).None?)
  {
    if ParseTag(tag).Some? && (source.Some? ==> ParseVersion(source.value).Some?) {
      var base := tag[1..];
      var p := PickRevision(force, RevisionOf(recordedVersion, base), RevisionIn(candidate, base),
                            RevisionIn(source, base));
      assert p.Revised? || p.Kept? || p.Refused?;
    }
  }

  // The two errors of the inputs' form, in the order the code checks them.
  lemma UnsafeExactly(tag: string, recordedTag: string, recordedVersion: string, force: bool,
                      candidate: Option<string>, source: Option<string>)
    ensures var d := DecideRelease(tag, recordedTag, recordedVersion, force, candidate, source);
            && (d.UnsafeTag? <==> !IsTag(tag))
            && (d.UnsafeSource? <==> !d.UnsafeTag? && source.Some? && !IsVersion(source.value))
  {
    InputErrors(tag, recordedTag, recordedVersion, force, candidate, source);
    TagsAreShown(tag);
    if source.Some? { VersionsAreShown(source.value); }
  }

  // ---------------------------------------------------------- a whole history

  // The upstream metadata and the version of the package manifests.
  datatype Store = Store(tag: string, version: string, source: string)

  // One run of the upstream check, on the tag that upstream then has.
  datatype Check = Check(tag: string, force: bool)

  function Decided(s: Store, c: Check): Decision {
    DecideRelease(c.tag, s.tag, s.version, c.force, None, Some(s.source))
  }

  predicate Releases(s: Store, c: Check) {
    Decided(s, c).Decision? && Decided(s, c).needsRelease
  }

  // A release writes its version back as the recorded one and the source's.
  function Next(s: Store, c: Check): Store {
    var d := Decided(s, c);
    if Releases(s, c) then Store(d.tag, d.version, d.version) else s
  }

  function IssuedNow(s: Store, c: Check): seq<string> {
    if Releases(s, c) then [Decided(s, c).version] else []
  }

  // The tag to which a release moves the store.
  function SwitchedNow(s: Store, c: Check): seq<string> {
    if Releases(s, c) && c.tag != s.tag then [c.tag] else []
  }

  function Issued(s: Store, cs: seq<Check>): seq<string>
    decreases cs
  {
    if cs == [] then [] else IssuedNow(s, cs[0]) + Issued(Next(s, cs[0]), cs[1..])
  }

  function Switches(s: Store, cs: seq<Check>): seq<string>
    decreases cs
  {
    if cs == [] then [] else SwitchedNow(s, cs[0]) + Switches(Next(s, cs[0]), cs[1..])
  }

  lemma ReleaseInputs(s: Store, c: Check)
    requires Releases(s, c)
    ensures IsTag(c.tag) && ParseVersion(s.source).Some?
  {
    InputErrors(c.tag, s.tag, s.version, c.force, None, Some(s.source));
    TagsAreShown(c.tag);
  }

  function NextRevision(changed: bool, recorded: nat, mine: nat): nat {
    (if changed then mine else Max(recorded, mine)) + 1
  }

  lemma RuleReleases(b: Base, changed: bool, force: bool, recorded: nat, mine: nat, kept: string)
    ensures var d := Rule(b, changed, force, true, recorded, mine, 0, kept);
            d.Decision? && d.needsRelease ==>
              d == Decision(true, Tag(b), Show(Version(b, NextRevision(changed, recorded, mine))))
  {
  }

  // On an unchanged tag a release is strictly above the recorded and the source
  // revision of its base; on a new tag it is one above the source's.
  lemma ReleaseShape(s: Store, c: Check) returns (v: Version)
    requires Releases(s, c)
    ensures c.tag == Tag(v.base) && Decided(s, c) == Decision(true, c.tag, Show(v)) && ParseVersion(Show(v)) == Some(v)
    ensures v.revision ==
            NextRevision(c.tag != s.tag, Revision(Some(s.version), v.base), Revision(Some(s.source), v.base))
  {
    ReleaseInputs(s, c);
    var b :| c.tag == Tag(b);
    DecisionFollowsRule(b, s.tag, s.version, c.force, None, Some(s.source));
    var recorded, mine := Revision(Some(s.version), b), Revision(Some(s.source), b);
    RuleReleases(b, c.tag != s.tag, c.force, recorded, mine, s.version);
    v := Version(b, NextRevision(c.tag != s.tag, recorded, mine));
    VersionRoundTrip(v, Show(v));
  }

  // After a release, checking the same tag again without force changes nothing.
  lemma RerunIsNoop(s: Store, c: Check)
    requires Releases(s, c)
    ensures Decided(Next(s, c), Check(c.tag, false)) == Decision(false, c.tag, Next(s, c).version)
    ensures Next(Next(s, c), Check(c.tag, false)) == Next(s, c)
  {
    var v := ReleaseShape(s, c);
    DecisionFollowsRule(v.base, c.tag, Show(v), false, None, Some(Show(v)));
  }

  ghost predicate Distinct(a: seq<string>) {
    forall i, j | 0 <= i < j < |a| :: a[i] != a[j]
  }

  // Not issued yet: of a tag not seen so far, or above what is recorded for the tag.
  predicate IsNew(s: Store, seen: set<string>, text: string) {
    var v := ParseVersion(text);
    v.Some? && (Tag(v.value.base) !in seen
                || (Tag(v.value.base) == s.tag && v.value.revision > Revision(Some(s.version), v.value.base)))
  }

  lemma LaterIsNew(s: Store, c: Check, seen: set<string>, text: string)
    requires Releases(s, c) && s.tag in seen && (c.tag == s.tag || c.tag !in seen)
    requires IsNew(Next(s, c), seen + {c.tag}, text)
    ensures IsNew(s, seen, text) && text != Decided(s, c).version
  {
    var v := ReleaseShape(s, c);
    var w := ParseVersion(text).value;
    if Tag(w.base) == Tag(v.base) { TagRoundTrip(w.base, Tag(v.base)); TagRoundTrip(v.base, Tag(v.base)); }
  }

  lemma ReleaseIsNew(s: Store, c: Check, seen: set<string>)
    requires Releases(s, c) && (c.tag == s.tag || c.tag !in seen)
    ensures IsNew(s, seen, Decided(s, c).version)
  {
    var v := ReleaseShape(s, c);
  }

  lemma DistinctTail(x: string, rest: seq<string>)
    ensures Distinct([x] + rest) <==> Distinct(rest) && x !in rest
  {
    var all := [x] + rest;
    if Distinct(all) {
      forall i, j | 0 <= i < j < |rest| ensures rest[i] != rest[j] { assert all[i + 1] != all[j + 1]; }
      forall i | 0 <= i < |rest| ensures rest[i] != x { assert all[0] != all[i + 1]; }
    }
    if Distinct(rest) && x !in rest {
      forall i, j | 0 <= i < j < |all| ensures all[i] != all[j] { assert all[j] == rest[j - 1]; }
    }
  }

  lemma IssuedFirst(s: Store, c: Check, seen: set<string>, later: seq<string>)
    requires Releases(s, c) && s.tag in seen && (c.tag == s.tag || c.tag !in seen)
    requires Distinct(later) && forall x | x in later :: IsNew(Next(s, c), seen + {c.tag}, x)
    ensures Distinct(IssuedNow(s, c) + later) && forall x | x in IssuedNow(s, c) + later :: IsNew(s, seen, x)
  {
    var text := Decided(s, c).version;
    ReleaseIsNew(s, c, seen);
    forall x | x in later ensures IsNew(s, seen, x) && x != text { LaterIsNew(s, c, seen, x); }
    DistinctTail(text, later);
  }

  lemma SwitchedFirst(s: Store, c: Check, seen: set<string>, later: seq<string>)
    requires Releases(s, c) && Distinct(SwitchedNow(s, c) + later)
    requires forall t | t in SwitchedNow(s, c) + later :: t !in seen
    ensures c.tag == s.tag || c.tag !in seen
    ensures Distinct(later) && forall t | t in later :: t !in seen && (s.tag in seen ==> t != c.tag)
  {
    if c.tag != s.tag {
      DistinctTail(c.tag, later);
      assert c.tag in SwitchedNow(s, c) + later;
    } else {
      assert [] + later == later;
    }
  }

  lemma SkipQuiet(s: Store, cs: seq<Check>)
    requires cs != [] && !Releases(s, cs[0])
    ensures Issued(s, cs) == Issued(s, cs[1..]) && Switches(s, cs) == Switches(s, cs[1..])
  {
    assert [] + Switches(s, cs[1..]) == Switches(s, cs[1..]) && [] + Issued(s, cs[1..]) == Issued(s, cs[1..]);
  }

  // If no tag comes back, no version is issued twice, from any starting store.
  lemma {:induction false} NoVersionTwice(s: Store, cs: seq<Check>, seen: set<string>)
    requires s.tag in seen && Distinct(Switches(s, cs)) && forall t | t in Switches(s, cs) :: t !in seen
    ensures Distinct(Issued(s, cs)) && forall x | x in Issued(s, cs) :: IsNew(s, seen, x)
    decreases cs
  {
    if cs != [] {
      var c, s1, rest := cs[0], Next(s, cs[0]), cs[1..];
      if Releases(s, c) {
        SwitchedFirst(s, c, seen, Switches(s1, rest));
        NoVersionTwice(s1, rest, seen + {c.tag});
        IssuedFirst(s, c, seen, Issued(s1, rest));
      } else {
        SkipQuiet(s, cs);
        NoVersionTwice(s, rest, seen);
      }
    }
  }

  // The source version belongs to the recorded tag, as after every release.
  predicate Anchored(s: Store) {
    var v := ParseVersion(s.source);
    v.Some? && s.tag == Tag(v.value.base)
  }

  lemma TagIsInjective(a: Base, b: Base)
    ensures Tag(a) == Tag(b) <==> a == b
  {
    TagRoundTrip(a, Tag(a));
    TagRoundTrip(b, Tag(b));
  }

  lemma ReleaseAnchors(s: Store, c: Check)
    requires Releases(s, c)
    ensures Anchored(Next(s, c))
  {
    var v := ReleaseShape(s, c);
  }

  lemma SwitchIsFirst(s: Store, c: Check, b: Base)
    requires Releases(s, c) && Anchored(s) && c.tag == Tag(b) != s.tag
    ensures Decided(s, c).version == Show(Version(b, 1))
  {
    var v := ReleaseShape(s, c);
    TagIsInjective(v.base, b);
    assert Revision(Some(s.source), b) == 0;
  }

  lemma SwitchCounts(s: Store, c: Check, b: Base)
    requires Anchored(s)
    ensures multiset(SwitchedNow(s, c))[Tag(b)] <= multiset(IssuedNow(s, c))[Show(Version(b, 1))]
    ensures Anchored(Next(s, c))
  {
    if Releases(s, c) {
      ReleaseAnchors(s, c);
      if c.tag == Tag(b) != s.tag { SwitchIsFirst(s, c, b); }
    }
  }

  lemma CountAppend(a: seq<string>, b: seq<string>, x: string)
    ensures multiset(a + b)[x] == multiset(a)[x] + multiset(b)[x]
  {
  }

  // Every move to a tag starts its revisions at 1 again.
  lemma {:induction false} SwitchIssuesFirst(s: Store, cs: seq<Check>, b: Base)
    requires Anchored(s)
    ensures multiset(Switches(s, cs))[Tag(b)] <= multiset(Issued(s, cs))[Show(Version(b, 1))]
    decreases cs
  {
    if cs != [] {
      var c, s1 := cs[0], Next(s, cs[0]);
      SwitchCounts(s, c, b);
      SwitchIssuesFirst(s1, cs[1..], b);
      CountAppend(SwitchedNow(s, c), Switches(s1, cs[1..]), Tag(b));
      CountAppend(IssuedNow(s, c), Issued(s1, cs[1..]), Show(Version(b, 1)));
    }
  }

  lemma {:induction false} DistinctCount(a: seq<string>, x: string)
    requires Distinct(a)
    ensures multiset(a)[x] <= 1
  {
    if a != [] {
      assert a == [a[0]] + a[1..];
      DistinctTail(a[0], a[1..]);
      DistinctCount(a[1..], x);
    }
  }

  lemma RepeatCount(a: seq<string>, i: nat, j: nat)
    requires i < j < |a| && a[i] == a[j]
    ensures multiset(a)[a[i]] >= 2
  {
    var front, back := a[..j], a[j..];
    assert a == front + back && front[i] in front && back[0] in back;
    assert multiset(front)[a[i]] >= 1 && multiset(back)[a[i]] >= 1;
  }

  lemma {:induction false} SwitchesAreTags(s: Store, cs: seq<Check>, t: string)
    requires t in Switches(s, cs)
    ensures IsTag(t)
    decreases cs
  {
    var c := cs[0];
    if Releases(s, c) && c.tag != s.tag && t == c.tag {
      var v := ReleaseShape(s, c);
    } else {
      SwitchesAreTags(Next(s, c), cs[1..], t);
    }
  }

  // A store right after the release of this version.
  function Released(v: Version): Store { Store(Tag(v.base), Show(v), Show(v)) }

  // Issued again are the versions that an earlier decision of the history issued, and
  // those of the starting tag up to the one that is out.
  ghost predicate IssuesOnce(v: Version, cs: seq<Check>) {
    var issued := Issued(Released(v), cs);
    Distinct(issued) && forall k | 1 <= k <= v.revision :: Show(Version(v.base, k)) !in issued
  }

  lemma NewIsNotOut(v: Version, k: nat, text: string)
    requires 1 <= k <= v.revision && IsNew(Released(v), {Tag(v.base)}, text)
    ensures text != Show(Version(v.base, k))
  {
    VersionRoundTrip(Version(v.base, k), text);
    VersionRoundTrip(v, Show(v));
  }

  lemma ReleasedIsAnchored(v: Version)
    requires v.revision > 0
    ensures Anchored(Released(v))
  {
    VersionRoundTrip(v, Show(v));
  }

  lemma RecurringTagReissues(v: Version, cs: seq<Check>, t: string)
    requires v.revision > 0 && multiset([Tag(v.base)] + Switches(Released(v), cs))[t] >= 2
    ensures !IssuesOnce(v, cs)
  {
    var s, first := Released(v), Tag(v.base);
    var tags, issued := Switches(s, cs), Issued(s, cs);
    CountAppend([first], tags, t);
    ReleasedIsAnchored(v);
    assert t in tags;
    SwitchesAreTags(s, cs, t);
    var b :| t == Tag(b);
    SwitchIssuesFirst(s, cs, b);
    TagIsInjective(b, v.base);
    if Distinct(issued) { DistinctCount(issued, Show(Version(b, 1))); }
  }

  // From a released version no version is issued again, over the whole history, if and
  // only if the store never returns to a tag, the starting one included.
  lemma NoVersionTwiceExactly(v: Version, cs: seq<Check>)
    requires v.revision > 0
    ensures IssuesOnce(v, cs) <==> Distinct([Tag(v.base)] + Switches(Released(v), cs))
  {
    var s, first := Released(v), Tag(v.base);
    var tags, issued := Switches(s, cs), Issued(s, cs);
    var all := [first] + tags;
    if Distinct(all) {
      DistinctTail(first, tags);
      NoVersionTwice(s, cs, {first});
      forall k | 1 <= k <= v.revision ensures Show(Version(v.base, k)) !in issued {
        if Show(Version(v.base, k)) in issued { NewIsNotOut(v, k, Show(Version(v.base, k))); }
      }
    } else {
      var i, j :| 0 <= i < j < |all| && all[i] == all[j];
      RepeatCount(all, i, j);
      RecurringTagReissues(v, cs, all[i]);
    }
  }
}
