/**
  The generated checklist in AGENTS.md: the renderer, and the rewriter that replaces
  the block between two markers. Markers are searched in plain text, so what matters
  is that none of them can straddle a boundary the rewriter creates.
*/
module Checklist {
  import opened Options

  const START := "<!-- PASEITO-LOCAL-FEATURES:START -->"
  const END := "<!-- PASEITO-LOCAL-FEATURES:END -->"

  datatype Feature = Feature(id: string, intent: string, fixes: seq<string>)

  // `IncompleteBlock` is the rewriter's own error; `UnpackFails` is the ValueError of
  // the unpacking when the end marker stands only before the start marker.
  datatype Rewritten = Text(text: string) | IncompleteBlock | UnpackFails

  // ---------------------------------------------------------- text functions

  predicate OccursAt(s: string, p: string, i: nat) {
    i + |p| <= |s| && s[i..i + |p|] == p
  }

  ghost predicate Contains(s: string, p: string) {
    exists i: nat :: OccursAt(s, p, i)
  }

  function FindFrom(s: string, p: string, i: nat): (r: Option<nat>)
    requires i <= |s|
    ensures r.Some? ==> i <= r.value && OccursAt(s, p, r.value)
    ensures r.Some? ==> forall j: nat | i <= j < r.value :: !OccursAt(s, p, j)
    ensures r.None? ==> forall j: nat | i <= j :: !OccursAt(s, p, j)
    decreases |s| - i
  {
    if OccursAt(s, p, i) then Some(i) else if i == |s| then None else FindFrom(s, p, i + 1)
  }

  // The first occurrence.
  function Find(s: string, p: string): (r: Option<nat>)
    ensures r.Some? ==> OccursAt(s, p, r.value) && forall j: nat | j < r.value :: !OccursAt(s, p, j)
    ensures r.None? <==> !Contains(s, p)
  {
    FindFrom(s, p, 0)
  }

  // What Python's `str.isspace` accepts.
  predicate IsSpace(c: char) {
    || '\t' <= c <= '\r' || '\U{1c}' <= c <= ' ' || c == '\U{85}' || c == '\U{a0}' || c == '\U{1680}'
    || '\U{2000}' <= c <= '\U{200a}' || c == '\U{2028}' || c == '\U{2029}' || c == '\U{202f}' || c == '\U{205f}'
    || c == '\U{3000}'
  }

  function RStrip(s: string): string {
    if s != [] && IsSpace(s[|s| - 1]) then RStrip(s[..|s| - 1]) else s
  }

  function LStripNewlines(s: string): string {
    if s != [] && s[0] == '\n' then LStripNewlines(s[1..]) else s
  }

  // ------------------------------------------------------------ the rewriter

  function ReplaceChecklist(content: string, checklist: string): Rewritten {
    ReplaceBetween(content, checklist, START, END)
  }

  function ReplaceBetween(content: string, checklist: string, p: string, q: string): Rewritten {
    var start := Find(content, p);
    if start.Some? != Find(content, q).Some? then IncompleteBlock
    else if start.None? then Text(RStrip(content) + "\n\n" + checklist)
    else
      var remainder := content[start.value + |p|..];
      var end := Find(remainder, q);
      if end.None? then UnpackFails
      else Text(Spliced(content[..start.value], checklist, remainder[end.value + |q|..]))
  }

  function Spliced(before: string, checklist: string, after: string): string {
    RStrip(before) + "\n\n" + checklist + LStripNewlines(after)
  }

  // ------------------------------------------------------------ the renderer

  function FixLines(fixes: seq<string>): seq<string> {
    if fixes == [] then [] else ["  - Fix: " + fixes[0]] + FixLines(fixes[1..])
  }

  function FeatureLines(features: seq<Feature>): seq<string> {
    if features == [] then []
    else
      ["- `" + features[0].id + "` — " + features[0].intent]
      + FixLines(features[0].fixes) + FeatureLines(features[1..])
  }

  const TITLE := "## Paseito local feature preservation"
  const AUTHORITY :=
    "`automation/feature-registry.json` " + "is authoritative. " + "Before and after every upstream rebase,"
  const DUTY :=
    "verify each feature and its " + "preservation fixes; update the " + "registry and regenerate this block"
  const MANNER := "instead of editing the list by hand."
  const HEADER := ["", TITLE, "", AUTHORITY, DUTY, MANNER, ""]

  // Each line with the newline that `join` puts in front of it.
  function Joined(lines: seq<string>): string {
    if lines == [] then "" else "\n" + lines[0] + Joined(lines[1..])
  }

  function Body(features: seq<Feature>): string {
    Joined(HEADER + FeatureLines(features) + ["", ""])
  }

  function Block(body: string): string { START + body + END + "\n" }

  function Rendered(features: seq<Feature>): string { Block(Body(features)) }

  // ----------------------------------------------------- markers stay whole

  // A marker holds no newline, and its first character does not come back in it.
  ghost predicate Marker(p: string) {
    p != "" && forall i | 0 <= i < |p| :: p[i] != '\n' && (i > 0 ==> p[i] != p[0])
  }

  lemma MarkersAreMarkers()
    ensures Marker(START) && Marker(END)
  {
  }

  lemma FindIs(s: string, p: string, i: nat)
    requires OccursAt(s, p, i) && forall j: nat | j < i :: !OccursAt(s, p, j)
    ensures Find(s, p) == Some(i)
  {
  }

  lemma FirstAfterNewlines(b: string, p: string, rest: string)
    requires Marker(p) && !Contains(b, p)
    ensures Find(b + "\n\n" + p + rest, p) == Some(|b| + 2)
  {
    var t := b + "\n\n" + p + rest;
    assert t[|b| + 2..|b| + 2 + |p|] == p;
    forall j: nat | j < |b| + 2 ensures !OccursAt(t, p, j) {
      if j + |p| <= |b| {
        assert b[j..j + |p|] == t[j..j + |p|] && !OccursAt(b, p, j);
      } else {
        var q := if j <= |b| then |b| else |b| + 1;
        assert j + |p| <= |t| ==> t[j..j + |p|][q - j] == t[q] && p[q - j] != t[q];
      }
    }
    FindIs(t, p, |b| + 2);
  }

  lemma FirstAfterBody(body: string, p: string, rest: string)
    requires Marker(p) && !Contains(body, p)
    ensures Find(body + p + rest, p) == Some(|body|)
  {
    var t := body + p + rest;
    assert t[|body|..|body| + |p|] == p;
    forall j: nat | j < |body| ensures !OccursAt(t, p, j) {
      if j + |p| <= |body| {
        assert body[j..j + |p|] == t[j..j + |p|] && !OccursAt(body, p, j);
      } else {
        assert j + |p| <= |t| ==> t[j..j + |p|][|body| - j] == t[|body|] && p[|body| - j] != t[|body|];
      }
    }
    FindIs(t, p, |body|);
  }

  lemma FirstInsideBody(body: string, p: string, rest: string)
    requires Marker(p) && Contains(body, p)
    ensures var i := Find(body + p + rest, p); i.Some? && i.value + |p| <= |body|
  {
    var t := body + p + rest;
    var j: nat :| OccursAt(body, p, j);
    assert t[j..j + |p|] == body[j..j + |p|];
    assert OccursAt(t, p, j);
  }

  // ------------------------------------------------------------------ stripping

  lemma {:induction false} RStripIdempotent(s: string)
    ensures RStrip(RStrip(s)) == RStrip(s) && RStrip(s) <= s
    ensures RStrip(RStrip(s) + "\n\n") == RStrip(s)
  {
    if s != [] && IsSpace(s[|s| - 1]) {
      RStripIdempotent(s[..|s| - 1]);
    } else {
      var t := s + "\n\n";
      assert t[..|t| - 1] == s + "\n" && (s + "\n")[..|s|] == s;
    }
  }

  // `r` is `s` without the white space it ends in, and that alone is gone.
  ghost predicate EndStripped(s: string, r: string) {
    r <= s && (forall i | |r| <= i < |s| :: IsSpace(s[i])) && (r != [] ==> !IsSpace(r[|r| - 1]))
  }

  // `r` is `s` without the newlines it begins with, and those alone are gone.
  ghost predicate NewlinesStripped(s: string, r: string) {
    |r| <= |s| && s[|s| - |r|..] == r && (forall i | 0 <= i < |s| - |r| :: s[i] == '\n') && (r != [] ==> r[0] != '\n')
  }

  lemma {:induction false} RStripStrips(s: string)
    ensures EndStripped(s, RStrip(s))
  {
    if s != [] && IsSpace(s[|s| - 1]) {
      RStripStrips(s[..|s| - 1]);
      assert s == s[..|s| - 1] + [s[|s| - 1]];
    }
  }

  lemma OneMoreNewline(s: string, r: string)
    requires NewlinesStripped(s, r)
    ensures NewlinesStripped("\n" + s, r)
  {
    var t := "\n" + s;
    assert t[|t| - |r|..] == s[|s| - |r|..];
    assert forall i | 0 < i < |t| :: t[i] == s[i - 1];
  }

  lemma NothingToStrip(s: string)
    requires s != "" ==> s[0] != '\n'
    ensures NewlinesStripped(s, s) && LStripNewlines(s) == s
  {
  }

  lemma {:induction false} LStripStrips(s: string)
    ensures NewlinesStripped(s, LStripNewlines(s))
  {
    if s != "" && s[0] == '\n' {
      var rest := s[1..];
      LStripStrips(rest);
      assert s == "\n" + rest && LStripNewlines(s) == LStripNewlines(rest);
      OneMoreNewline(rest, LStripNewlines(rest));
    } else {
      NothingToStrip(s);
    }
  }

  // What counts as white space among the ASCII characters.
  lemma AsciiSpaces(c: char)
    requires c < '\U{80}'
    ensures IsSpace(c) <==> c == ' ' || c in "\t\n\U{b}\U{c}\r" || c in "\U{1c}\U{1d}\U{1e}\U{1f}"
  {
  }

  lemma {:induction false} LStripIdempotent(s: string)
    ensures LStripNewlines("\n" + LStripNewlines(s)) == LStripNewlines(s)
    ensures |LStripNewlines(s)| <= |s|
    ensures s != [] && s[0] != '\n' ==> LStripNewlines(s) == s
  {
    if s != [] && s[0] == '\n' { LStripIdempotent(s[1..]); }
    var r := LStripNewlines(s);
    assert ("\n" + r)[1..] == r;
    if r != [] { StripsAll(s); }
  }

  lemma {:induction false} StripsAll(s: string)
    ensures LStripNewlines(s) == [] || LStripNewlines(s)[0] != '\n'
  {
    if s != [] && s[0] == '\n' { StripsAll(s[1..]); }
  }

  // A newline-stripped suffix is never shorter than what follows its last non-newline.
  lemma {:induction false} LStripKeepsTail(x: string, p: string, rest: string)
    requires Marker(p)
    ensures |LStripNewlines(x + p + rest)| >= |p| + |rest|
  {
    var t := x + p + rest;
    if x == [] {
      assert t[0] == p[0];
    } else if x[0] == '\n' {
      assert t[1..] == x[1..] + p + rest;
      LStripKeepsTail(x[1..], p, rest);
    }
  }

  // ------------------------------------------------------- last writer wins

  // `i` is where `p` first stands in `s`.
  ghost predicate FirstAt(s: string, p: string, i: nat) {
    OccursAt(s, p, i) && forall j: nat | j < i :: !OccursAt(s, p, j)
  }

  // What a rewrite keeps of a text: `b` is what stands before the first start marker, up
  // to trailing white space, and `a` what follows the first end marker after it, up to
  // leading newlines. A text without a block is all in `b`.
  ghost predicate Around(content: string, b: string, a: string) {
    if !Contains(content, START) then EndStripped(content, b) && a == ""
    else
      exists i: nat, j: nat :: FirstAt(content, START, i) && AroundAt(content, i, j, b, a)
  }

  ghost predicate AroundAt(content: string, i: nat, j: nat, b: string, a: string) {
    && i + |START| <= |content|
    && FirstAt(content[i + |START|..], END, j)
    && EndStripped(content[..i], b)
    && NewlinesStripped(content[i + |START|..][j + |END|..], a)
  }

  // The text around the block, as any rewrite of `content` leaves it.
  lemma Surroundings(content: string, checklist: string) returns (b: string, a: string)
    requires ReplaceChecklist(content, checklist).Text?
    ensures Around(content, b, a)
    ensures !Contains(b, START) && RStrip(b) == b && RStrip(b + "\n\n") == b && LStripNewlines("\n" + a) == a
    ensures forall k :: ReplaceChecklist(content, k) == Text(b + "\n\n" + k + a)
  {
    var start := Find(content, START);
    if start.None? {
      b, a := RStrip(content), "";
      RStripStrips(content);
      RStripIdempotent(content);
      assert content[..|b|] == b;
      PrefixLacks(content, |b|, START);
      assert forall k: string :: b + "\n\n" + k + a == b + "\n\n" + k;
      assert LStripNewlines("\n"[1..]) == "";
    } else {
      b, a := SurroundingsOfBlock(content, checklist);
    }
  }

  lemma FoundFirst(s: string, p: string)
    requires Find(s, p).Some?
    ensures FirstAt(s, p, Find(s, p).value) && Find(s, p).value + |p| <= |s|
  {
  }

  lemma ReplacedAt(content: string, k: string, p: string, q: string, i: nat, j: nat)
    requires Find(content, p) == Some(i) && i + |p| <= |content| && Find(content, q).Some?
    requires Find(content[i + |p|..], q) == Some(j) && j + |q| <= |content[i + |p|..]|
    ensures ReplaceBetween(content, k, p, q) == Text(Spliced(content[..i], k, content[i + |p|..][j + |q|..]))
  {
  }

  // The block of a text that has one, and a rewrite of such a text.
  lemma BlockOf(content: string, checklist: string, p: string, q: string) returns (i: nat, j: nat)
    requires Find(content, p).Some? && ReplaceBetween(content, checklist, p, q).Text?
    ensures FirstAt(content, p, i) && i + |p| <= |content|
    ensures FirstAt(content[i + |p|..], q, j) && j + |q| <= |content[i + |p|..]|
    ensures forall k :: ReplaceBetween(content, k, p, q) ==
              Text(Spliced(content[..i], k, content[i + |p|..][j + |q|..]))
  {
    i := Find(content, p).value;
    FoundFirst(content, p);
    j := Find(content[i + |p|..], q).value;
    FoundFirst(content[i + |p|..], q);
    forall k ensures ReplaceBetween(content, k, p, q) ==
              Text(Spliced(content[..i], k, content[i + |p|..][j + |q|..])) {
      ReplacedAt(content, k, p, q, i, j);
    }
  }

  lemma SurroundingsOfBlock(content: string, checklist: string) returns (b: string, a: string)
    requires Find(content, START).Some? && ReplaceChecklist(content, checklist).Text?
    ensures Around(content, b, a)
    ensures !Contains(b, START) && RStrip(b) == b && RStrip(b + "\n\n") == b && LStripNewlines("\n" + a) == a
    ensures forall k :: ReplaceChecklist(content, k) == Text(b + "\n\n" + k + a)
  {
    var i, j := BlockOf(content, checklist, START, END);
    b, a := RStrip(content[..i]), LStripNewlines(content[i + |START|..][j + |END|..]);
    RStripStrips(content[..i]);
    LStripStrips(content[i + |START|..][j + |END|..]);
    assert AroundAt(content, i, j, b, a);
    RStripIdempotent(content[..i]);
    LStripIdempotent(content[i + |START|..][j + |END|..]);
    BeforeLacks(content, i, b);
  }

  lemma BeforeLacks(content: string, i: nat, b: string)
    requires FirstAt(content, START, i) && i <= |content| && b <= content[..i]
    ensures !Contains(b, START)
  {
    FindIs(content, START, i);
    assert b == content[..|b|];
    PrefixLacks(content, |b|, START);
  }

  lemma PrefixLacks(s: string, n: nat, p: string)
    requires n <= |s| && p != ""
    requires Find(s, p).Some? ==> n <= Find(s, p).value
    ensures !Contains(s[..n], p)
  {
    if Contains(s[..n], p) {
      var i: nat :| OccursAt(s[..n], p, i);
      assert s[i..i + |p|] == s[..n][i..i + |p|];
      assert OccursAt(s, p, i);
    }
  }

  // The parts of a rewritten text, as the next rewrite finds them.
  lemma RewrittenParts(b: string, body: string, a: string)
    requires !Contains(b, START)
    ensures var t, rest := b + "\n\n" + Block(body) + a, body + END + ("\n" + a);
            && Find(t, START) == Some(|b| + 2) && t[..|b| + 2] == b + "\n\n" && t[|b| + 2 + |START|..] == rest
            && Find(rest, END).Some? && Find(t, END).Some?
  {
    var t, rest := b + "\n\n" + Block(body) + a, body + END + ("\n" + a);
    MarkersAreMarkers();
    assert t == b + "\n\n" + START + rest;
    FirstAfterNewlines(b, START, rest);
    assert t[|b| + 2 + |START|..] == rest;
    if Contains(body, END) { FirstInsideBody(body, END, "\n" + a); } else { FirstAfterBody(body, END, "\n" + a); }
    FoundInSuffix(t, |b| + 2 + |START|, END);
  }

  lemma SecondRewriteKeeps(b: string, body: string, a: string, k: string)
    requires !Contains(b, START) && RStrip(b + "\n\n") == b
    ensures var rest := body + END + ("\n" + a);
            Find(rest, END).Some?
            && ReplaceChecklist(b + "\n\n" + Block(body) + a, k)
               == Text(b + "\n\n" + k + LStripNewlines(rest[Find(rest, END).value + |END|..]))
  {
    RewrittenParts(b, body, a);
  }

  // What stands after the first end marker is the surrounding text alone if and only
  // if that marker is the block's own.
  lemma AfterFirstEnd(body: string, a: string)
    requires LStripNewlines("\n" + a) == a
    ensures var rest := body + END + ("\n" + a);
            Find(rest, END).Some?
            && (LStripNewlines(rest[Find(rest, END).value + |END|..]) == a <==> !Contains(body, END))
  {
    var rest := body + END + ("\n" + a);
    MarkersAreMarkers();
    if Contains(body, END) {
      FirstInsideBody(body, END, "\n" + a);
      var i := Find(rest, END).value + |END|;
      assert rest[i..] == body[i..] + END + ("\n" + a);
      LStripKeepsTail(body[i..], END, "\n" + a);
    } else {
      FirstAfterBody(body, END, "\n" + a);
      assert rest[|body| + |END|..] == "\n" + a;
    }
  }

  lemma SecondText(p: string, k: string, x: string, a: string)
    ensures Text(p + k + x) == Text(p + k + a) <==> x == a
  {
    SamePrefix(p + k, x, a);
  }

  lemma SecondRewrite(b: string, body: string, a: string, k: string)
    requires !Contains(b, START) && RStrip(b + "\n\n") == b && LStripNewlines("\n" + a) == a
    ensures ReplaceChecklist(b + "\n\n" + Block(body) + a, k) == Text(b + "\n\n" + k + a) <==> !Contains(body, END)
  {
    SecondRewriteKeeps(b, body, a, k);
    AfterFirstEnd(body, a);
    var rest := body + END + ("\n" + a);
    SecondText(b + "\n\n", k, LStripNewlines(rest[Find(rest, END).value + |END|..]), a);
  }

  lemma SamePrefix(p: string, x: string, y: string)
    ensures p + x == p + y <==> x == y
  {
    assert (p + x)[|p|..] == x && (p + y)[|p|..] == y;
  }

  // Rewriting a rewritten file replaces exactly the generated block, and only that,
  // if and only if the first block's body holds no end marker.
  lemma LastWriterWins(content: string, body: string, k: string)
    requires ReplaceChecklist(content, Block(body)).Text?
    ensures ReplaceChecklist(ReplaceChecklist(content, Block(body)).text, k) == ReplaceChecklist(content, k) <==>
            !Contains(body, END)
  {
    var b, a := Surroundings(content, Block(body));
    SecondRewrite(b, body, a, k);
  }

  lemma OccursInSuffix(t: string, n: nat, p: string, i: nat)
    requires n <= i && n <= |t|
    ensures OccursAt(t, p, i) <==> OccursAt(t[n..], p, i - n)
  {
  }

  lemma FoundInSuffix(t: string, n: nat, p: string)
    requires n <= |t|
    ensures Find(t[n..], p).None? <==> forall i: nat | OccursAt(t, p, i) :: i < n
    ensures Find(t[n..], p).Some? ==> Contains(t, p)
  {
    forall i: nat | n <= i ensures OccursAt(t, p, i) <==> OccursAt(t[n..], p, i - n) { OccursInSuffix(t, n, p, i); }
    var found := Find(t[n..], p);
    if found.Some? { assert OccursAt(t, p, n + found.value); }
  }

  // Which error, if any, does not depend on the checklist that is written.
  lemma ErrorsExactly(content: string, k: string)
    ensures ReplaceChecklist(content, k).IncompleteBlock? <==> (Contains(content, START) <==> !Contains(content, END))
    ensures ReplaceChecklist(content, k).UnpackFails? <==>
              && Contains(content, START) && Contains(content, END)
              && forall i: nat | OccursAt(content, END, i) :: i < Find(content, START).value + |START|
  {
    var start := Find(content, START);
    if start.Some? { FoundInSuffix(content, start.value + |START|, END); }
  }

  // --------------------------------------------------------- rendered bodies

  lemma NoStraddle(a: string, c: char, b: string, p: string, i: nat)
    requires i <= |a| < i + |p| && c !in p
    ensures !OccursAt(a + [c] + b, p, i)
  {
    var t := a + [c] + b;
    assert p[|a| - i] != c;
    if i + |p| <= |t| { assert t[i..i + |p|][|a| - i] == c; }
  }

  lemma NoEarlyStart(a: string, b: string, p: string, i: nat)
    requires i < |a| && p != "" && p[0] !in a
    ensures !OccursAt(a + b, p, i)
  {
  }

  // A character that is not in the marker separates two texts.
  lemma ContainsAcross(a: string, c: char, b: string, p: string)
    requires p != "" && c !in p
    ensures Contains(a + [c] + b, p) <==> Contains(a, p) || Contains(b, p)
  {
    var t := a + [c] + b;
    if Contains(a, p) {
      var i: nat :| OccursAt(a, p, i);
      assert t[i..i + |p|] == a[i..i + |p|];
      assert OccursAt(t, p, i);
    }
    if Contains(b, p) {
      var i: nat :| OccursAt(b, p, i);
      var k := |a| + 1 + i;
      assert t[k..k + |p|] == b[i..i + |p|];
      assert OccursAt(t, p, k);
    }
    if Contains(t, p) {
      var i: nat :| OccursAt(t, p, i);
      if i <= |a| < i + |p| { NoStraddle(a, c, b, p, i); }
      if i + |p| <= |a| {
        assert a[i..i + |p|] == t[i..i + |p|];
        assert OccursAt(a, p, i);
      } else {
        var k := i - |a| - 1;
        SliceBehind(a + [c], b, i, i + |p|);
        assert OccursAt(b, p, k);
      }
    }
  }

  lemma SliceBehind(a: string, b: string, i: nat, j: nat)
    requires |a| <= i <= j <= |a| + |b|
    ensures (a + b)[i..j] == b[i - |a|..j - |a|]
  {
  }

  // A text without the marker's first character cannot begin it.
  lemma ContainsAfter(a: string, b: string, p: string)
    requires p != "" && p[0] !in a
    ensures Contains(a + b, p) <==> Contains(b, p)
  {
    var t := a + b;
    if Contains(b, p) {
      var i: nat :| OccursAt(b, p, i);
      var k := |a| + i;
      assert t[k..k + |p|] == b[i..i + |p|];
      assert OccursAt(t, p, k);
    }
    if Contains(t, p) {
      var i: nat :| OccursAt(t, p, i);
      if i < |a| { NoEarlyStart(a, b, p, i); }
      var k := i - |a|;
      assert b[k..k + |p|] == t[i..i + |p|];
      assert OccursAt(b, p, k);
    }
  }

  ghost predicate AnyLine(lines: seq<string>, p: string) {
    lines != [] && (Contains(lines[0], p) || AnyLine(lines[1..], p))
  }

  lemma {:induction false} AnyLineAppend(a: seq<string>, b: seq<string>, p: string)
    ensures AnyLine(a + b, p) <==> AnyLine(a, p) || AnyLine(b, p)
  {
    if a == [] {
      assert a + b == b;
    } else {
      assert (a + b)[1..] == a[1..] + b;
      AnyLineAppend(a[1..], b, p);
    }
  }

  lemma {:induction false} JoinedContains(lines: seq<string>, p: string)
    requires p != "" && '\n' !in p
    ensures Contains(Joined(lines), p) <==> AnyLine(lines, p)
  {
    if lines != [] {
      var line, rest := lines[0], lines[1..];
      JoinedContains(rest, p);
      ContainsAcross("", '\n', line + Joined(rest), p);
      assert Joined(lines) == "" + ['\n'] + (line + Joined(rest));
      if rest == [] {
        assert line + Joined(rest) == line;
      } else {
        var more := rest[0] + Joined(rest[1..]);
        assert Joined(rest) == "" + ['\n'] + more && line + Joined(rest) == line + ['\n'] + more;
        ContainsAcross("", '\n', more, p);
        ContainsAcross(line, '\n', more, p);
      }
    }
  }

  lemma WithoutFirstCharacter(s: string, p: string)
    requires p != "" && p[0] !in s
    ensures !Contains(s, p)
  {
  }

  ghost predicate Marked(f: Feature) {
    Contains(f.id, END) || Contains(f.intent, END) || AnyLine(f.fixes, END)
  }

  lemma {:induction false} FixLinesMarked(fixes: seq<string>)
    ensures AnyLine(FixLines(fixes), END) <==> AnyLine(fixes, END)
  {
    if fixes != [] {
      ContainsAfter("  - Fix: ", fixes[0], END);
      FixLinesMarked(fixes[1..]);
    }
  }

  lemma TitleMarked(id: string, intent: string)
    ensures Contains("- `" + id + "` — " + intent, END) <==> Contains(id, END) || Contains(intent, END)
  {
    var tail := " — " + intent;
    assert "- `" + id + "` — " + intent == "- `" + (id + ['`'] + tail);
    ContainsAfter("- `", id + ['`'] + tail, END);
    ContainsAcross(id, '`', tail, END);
    ContainsAfter(" — ", intent, END);
  }

  ghost predicate AnyMarked(features: seq<Feature>) {
    exists i :: 0 <= i < |features| && Marked(features[i])
  }

  lemma {:induction false} FeatureLinesMarked(features: seq<Feature>)
    ensures AnyLine(FeatureLines(features), END) <==> AnyMarked(features)
  {
    if features != [] {
      var f, rest := features[0], features[1..];
      var title := ["- `" + f.id + "` — " + f.intent];
      FeatureLinesMarked(rest);
      TitleMarked(f.id, f.intent);
      FixLinesMarked(f.fixes);
      AnyLineAppend(title, FixLines(f.fixes), END);
      AnyLineAppend(title + FixLines(f.fixes), FeatureLines(rest), END);
      assert AnyMarked(features) <==> Marked(f) || AnyMarked(rest) by {
        if AnyMarked(rest) {
          var i :| 0 <= i < |rest| && Marked(rest[i]);
          assert Marked(features[i + 1]);
        }
        if AnyMarked(features) && !Marked(f) {
          var i :| 0 <= i < |features| && Marked(features[i]);
          assert Marked(rest[i - 1]);
        }
      }
    }
  }

  lemma PiecesUnmarked(a: string, b: string, c: string, p: string)
    requires p != "" && p[0] !in a && p[0] !in b && p[0] !in c
    ensures !Contains(a + b + c, p)
  {
  }

  lemma AuthorityUnmarked()
    ensures !Contains(AUTHORITY, END)
  {
    PiecesUnmarked("`automation/feature-registry.json` ", "is authoritative. ",
                   "Before and after every upstream rebase,", END);
  }

  lemma DutyUnmarked()
    ensures !Contains(DUTY, END)
  {
    PiecesUnmarked("verify each feature and its ", "preservation fixes; update the ",
                   "registry and regenerate this block", END);
  }

  lemma FramingUnmarked()
    ensures !Contains("", END) && !Contains(TITLE, END) && !Contains(MANNER, END)
  {
    WithoutFirstCharacter("", END);
    WithoutFirstCharacter(TITLE, END);
    WithoutFirstCharacter(MANNER, END);
  }

  lemma SevenLines(a: string, b: string, c: string, d: string, e: string, p: string)
    requires !Contains(a, p) && !Contains(b, p) && !Contains(c, p) && !Contains(d, p) && !Contains(e, p)
    ensures !AnyLine([a, b, a, c, d, e, a], p)
  {
    NoLine([a, b, a, c, d, e, a], p);
  }

  lemma HeaderUnmarked()
    ensures !AnyLine(HEADER, END)
  {
    FramingUnmarked();
    AuthorityUnmarked();
    DutyUnmarked();
    SevenLines("", TITLE, AUTHORITY, DUTY, MANNER, END);
  }

  lemma {:induction false} NoLine(lines: seq<string>, p: string)
    requires forall i | 0 <= i < |lines| :: !Contains(lines[i], p)
    ensures !AnyLine(lines, p)
  {
    if lines != [] { NoLine(lines[1..], p); }
  }

  // A rendered body holds the end marker exactly when some field of the registry does.
  lemma BodyMarkedExactly(features: seq<Feature>)
    ensures Contains(Body(features), END) <==> AnyMarked(features)
  {
    var lines := HEADER + FeatureLines(features) + ["", ""];
    assert '\n' !in END by { MarkersAreMarkers(); }
    JoinedContains(lines, END);
    AnyLineAppend(HEADER + FeatureLines(features), ["", ""], END);
    AnyLineAppend(HEADER, FeatureLines(features), END);
    HeaderUnmarked();
    FeatureLinesMarked(features);
    WithoutFirstCharacter("", END);
    NoLine(["", ""], END);
  }

  // A synchronised file is up to date if and only if no field of the registry holds
  // the end marker.
  lemma SyncedIsUpToDate(content: string, features: seq<Feature>)
    requires ReplaceChecklist(content, Rendered(features)).Text?
    ensures var synced := ReplaceChecklist(content, Rendered(features));
            ReplaceChecklist(synced.text, Rendered(features)) == synced <==> !AnyMarked(features)
  {
    LastWriterWins(content, Body(features), Rendered(features));
    BodyMarkedExactly(features);
  }

  // ------------------------------------------------- what a rendered block says

  // The line of feature `i` in the list.
  function LineOf(features: seq<Feature>, i: nat): (n: nat)
    requires i <= |features|
    ensures n >= i
  {
    if i == 0 then 0 else LineOf(features, i - 1) + 1 + |features[i - 1].fixes|
  }

  lemma {:induction false} FixLinesShape(fixes: seq<string>)
    ensures |FixLines(fixes)| == |fixes|
    ensures forall j | 0 <= j < |fixes| :: FixLines(fixes)[j] == "  - Fix: " + fixes[j]
  {
    if fixes != [] {
      FixLinesShape(fixes[1..]);
      assert fixes == [fixes[0]] + fixes[1..];
    }
  }

  lemma {:induction false} LineOfRest(features: seq<Feature>, i: nat)
    requires 0 < i <= |features|
    ensures LineOf(features, i) == 1 + |features[0].fixes| + LineOf(features[1..], i - 1)
  {
    if i > 1 { LineOfRest(features, i - 1); }
  }

  // Every feature has its line, with its fixes below it, in the order of the registry,
  // and there are no other lines.
  lemma {:induction false} FeatureLineAt(features: seq<Feature>, i: nat)
    requires i < |features|
    ensures |FeatureLines(features)| == LineOf(features, |features|)
    ensures var n, f := LineOf(features, i), features[i];
            n + |f.fixes| < |FeatureLines(features)|
            && FeatureLines(features)[n] == "- `" + f.id + "` — " + f.intent
            && forall j | 0 <= j < |f.fixes| :: FeatureLines(features)[n + 1 + j] == "  - Fix: " + f.fixes[j]
  {
    var f, rest := features[0], features[1..];
    LineOfRest(features, |features|);
    FixLinesShape(f.fixes);
    if rest != [] { FeatureLineAt(rest, if i == 0 then 0 else i - 1); }
    if i > 0 { LineOfRest(features, i); }
  }

  // Fields that cannot be taken for the list's own punctuation.
  ghost predicate Plain(f: Feature) {
    && '\n' !in f.id && '\n' !in f.intent && '`' !in f.id
    && forall j | 0 <= j < |f.fixes| :: '\n' !in f.fixes[j]
  }

  ghost predicate AllPlain(features: seq<Feature>) { forall i | 0 <= i < |features| :: Plain(features[i]) }

  ghost predicate OneLiners(lines: seq<string>) { forall i | 0 <= i < |lines| :: '\n' !in lines[i] }

  lemma NotTheSame(x: string, s: string, y: string, t: string, c: char)
    requires c !in y && (s == "" || s[0] == c) && |x| < |y|
    ensures x + s != y + t
  {
    assert (y + t)[|x|] == y[|x|];
    if s != "" { assert (x + s)[|x|] == c; }
  }

  // Texts up to a character that neither holds are the same.
  lemma SameUpTo(x: string, s: string, y: string, t: string, c: char)
    requires c !in x && c !in y && x + s == y + t
    requires (s == "" || s[0] == c) && (t == "" || t[0] == c)
    ensures x == y && s == t
  {
    if |x| < |y| { NotTheSame(x, s, y, t, c); }
    if |y| < |x| { NotTheSame(y, t, x, s, c); }
    assert x == (x + s)[..|x|] && y == (y + t)[..|y|];
    assert s == (x + s)[|x|..] && t == (y + t)[|y|..];
  }

  lemma {:induction false} JoinedDetermines(a: seq<string>, b: seq<string>)
    requires OneLiners(a) && OneLiners(b) && Joined(a) == Joined(b)
    ensures a == b
  {
    if a != [] && b != [] {
      assert Joined(a)[1..] == a[0] + Joined(a[1..]) && Joined(b)[1..] == b[0] + Joined(b[1..]);
      SameUpTo(a[0], Joined(a[1..]), b[0], Joined(b[1..]), '\n');
      JoinedDetermines(a[1..], b[1..]);
      assert a == [a[0]] + a[1..] && b == [b[0]] + b[1..];
    }
  }

  lemma SameTitle(f: Feature, g: Feature)
    requires Plain(f) && Plain(g) && "- `" + f.id + "` — " + f.intent == "- `" + g.id + "` — " + g.intent
    ensures f.id == g.id && f.intent == g.intent
  {
    var s, t := "` — " + f.intent, "` — " + g.intent;
    assert "- `" + f.id + "` — " + f.intent == "- `" + (f.id + s);
    assert "- `" + g.id + "` — " + g.intent == "- `" + (g.id + t);
    SamePrefix("- `", f.id + s, g.id + t);
    SameUpTo(f.id, s, g.id, t, '`');
    SamePrefix("` — ", f.intent, g.intent);
  }

  // Not a fix's line.
  ghost predicate Unfixed(lines: seq<string>) { lines == [] || (lines[0] != "" && lines[0][0] == '-') }

  lemma HeadTail<T>(x: T, r: seq<T>, s: seq<T>)
    ensures var t := [x] + r + s; t[0] == x && t[1..] == r + s
  {
  }

  lemma FixesAreFixes(fixes: seq<string>, s: seq<string>)
    requires fixes != []
    ensures var x := FixLines(fixes) + s; x != [] && x[0] == "  - Fix: " + fixes[0]
    ensures (FixLines(fixes) + s)[1..] == FixLines(fixes[1..]) + s && !Unfixed(FixLines(fixes) + s)
  {
    HeadTail("  - Fix: " + fixes[0], FixLines(fixes[1..]), s);
  }

  lemma SameFirst<T>(s: seq<T>, t: seq<T>)
    requires s != [] && t != [] && s[0] == t[0] && s[1..] == t[1..]
    ensures s == t
  {
    assert s == [s[0]] + s[1..] && t == [t[0]] + t[1..];
  }

  // The lines after a list of fixes do not continue it.
  lemma {:induction false} SameFixes(a: seq<string>, s: seq<string>, b: seq<string>, t: seq<string>)
    requires FixLines(a) + s == FixLines(b) + t && Unfixed(s) && Unfixed(t)
    ensures a == b && s == t
  {
    assert [] + s == s && [] + t == t;
    if a != [] { FixesAreFixes(a, s); }
    if b != [] { FixesAreFixes(b, t); }
    if a != [] && b != [] {
      SamePrefix("  - Fix: ", a[0], b[0]);
      SameFixes(a[1..], s, b[1..], t);
      SameFirst(a, b);
    }
  }

  lemma FeatureLinesParts(features: seq<Feature>)
    requires features != []
    ensures var x, f := FeatureLines(features), features[0]; x != [] && x[0] == "- `" + f.id + "` — " + f.intent
    ensures Unfixed(FeatureLines(features))
    ensures FeatureLines(features)[1..] == FixLines(features[0].fixes) + FeatureLines(features[1..])
  {
    HeadTail("- `" + features[0].id + "` — " + features[0].intent, FixLines(features[0].fixes),
             FeatureLines(features[1..]));
  }

  lemma {:induction false} FeatureLinesDetermine(fs: seq<Feature>, gs: seq<Feature>)
    requires AllPlain(fs) && AllPlain(gs) && FeatureLines(fs) == FeatureLines(gs)
    ensures fs == gs
  {
    if fs != [] && gs != [] {
      FeatureLinesParts(fs);
      FeatureLinesParts(gs);
      SameTitle(fs[0], gs[0]);
      if |fs| > 1 { FeatureLinesParts(fs[1..]); }
      if |gs| > 1 { FeatureLinesParts(gs[1..]); }
      SameFixes(fs[0].fixes, FeatureLines(fs[1..]), gs[0].fixes, FeatureLines(gs[1..]));
      FeatureLinesDetermine(fs[1..], gs[1..]);
      SameFirst(fs, gs);
    }
  }

  lemma {:induction false} FixLinesAreLines(fixes: seq<string>)
    requires OneLiners(fixes)
    ensures OneLiners(FixLines(fixes))
  {
    if fixes != [] { FixLinesAreLines(fixes[1..]); }
  }

  lemma {:induction false} FeatureLinesAreLines(features: seq<Feature>)
    requires AllPlain(features)
    ensures OneLiners(FeatureLines(features))
  {
    if features != [] {
      FixLinesAreLines(features[0].fixes);
      FeatureLinesAreLines(features[1..]);
    }
  }

  lemma BodyDetermines(xs: seq<string>, ys: seq<string>)
    requires OneLiners(xs) && OneLiners(ys) && Joined(HEADER + xs + ["", ""]) == Joined(HEADER + ys + ["", ""])
    ensures xs == ys
  {
    var t := ["", ""];
    JoinedAppend(HEADER, xs + t);
    JoinedAppend(HEADER, ys + t);
    assert HEADER + xs + t == HEADER + (xs + t) && HEADER + ys + t == HEADER + (ys + t);
    SamePrefix(Joined(HEADER), Joined(xs + t), Joined(ys + t));
    JoinedDetermines(xs + t, ys + t);
    assert xs == (xs + t)[..|xs|] && ys == (ys + t)[..|ys|];
  }

  lemma BlockDetermines(x: string, y: string)
    requires Block(x) == Block(y)
    ensures x == y
  {
    assert Block(x) == START + (x + (END + "\n")) && Block(y) == START + (y + (END + "\n"));
    SamePrefix(START, x + (END + "\n"), y + (END + "\n"));
    assert x == (x + (END + "\n"))[..|x|] && y == (y + (END + "\n"))[..|y|];
  }

  // Registries of plain fields with the same rendering are the same.
  lemma RenderedDetermines(fs: seq<Feature>, gs: seq<Feature>)
    requires AllPlain(fs) && AllPlain(gs)
    ensures Rendered(fs) == Rendered(gs) <==> fs == gs
  {
    if Rendered(fs) == Rendered(gs) {
      BlockDetermines(Body(fs), Body(gs));
      FeatureLinesAreLines(fs);
      FeatureLinesAreLines(gs);
      BodyDetermines(FeatureLines(fs), FeatureLines(gs));
      FeatureLinesDetermine(fs, gs);
    }
  }

  // After a synchronisation the check passes for that registry and for no other.
  lemma CheckIsExact(content: string, fs: seq<Feature>, gs: seq<Feature>)
    requires ReplaceChecklist(content, Rendered(fs)).Text? && AllPlain(fs) && AllPlain(gs) && !AnyMarked(fs)
    ensures var synced := ReplaceChecklist(content, Rendered(fs));
            ReplaceChecklist(synced.text, Rendered(gs)) == synced <==> fs == gs
  {
    var b, a := Surroundings(content, Rendered(fs));
    LastWriterWins(content, Body(fs), Rendered(gs));
    BodyMarkedExactly(fs);
    RenderedDetermines(fs, gs);
    SameMiddle(b + "\n\n", Rendered(fs), Rendered(gs), a);
  }

  lemma SameMiddle(p: string, x: string, y: string, q: string)
    ensures p + x + q == p + y + q <==> x == y
  {
    if p + x + q == p + y + q {
      assert x == (p + x + q)[|p|..|p| + |x|] && y == (p + y + q)[|p|..|p| + |y|];
    }
  }

  // ------------------------------------------------------------- the renderer

  function Join(lines: seq<string>): string {
    if lines == [] then "" else if |lines| == 1 then lines[0] else lines[0] + "\n" + Join(lines[1..])
  }

  lemma {:induction false} JoinIsJoined(lines: seq<string>)
    requires lines != []
    ensures Join(lines) == lines[0] + Joined(lines[1..])
  {
    if |lines| > 1 { JoinIsJoined(lines[1..]); }
  }

  lemma {:induction false} JoinedAppend(a: seq<string>, b: seq<string>)
    ensures Joined(a + b) == Joined(a) + Joined(b)
  {
    if a == [] {
      assert a + b == b;
    } else {
      assert (a + b)[1..] == a[1..] + b;
      JoinedAppend(a[1..], b);
    }
  }

  lemma LastLines(end: string)
    ensures Joined(["", end, ""]) == Joined(["", ""]) + end + "\n"
  {
    assert ["", end, ""][1..] == [end, ""] && [end, ""][1..] == [""] && [""][1..] == [];
    assert ["", ""][1..] == [""];
  }

  lemma JoinBlock(start: string, middle: seq<string>, end: string)
    ensures Join([start] + (middle + ["", end, ""])) == start + Joined(middle + ["", ""]) + end + "\n"
  {
    JoinIsJoined([start] + (middle + ["", end, ""]));
    JoinedAppend(middle, ["", end, ""]);
    JoinedAppend(middle, ["", ""]);
    LastLines(end);
  }

  lemma RenderedIsJoin(features: seq<Feature>)
    ensures Join([START] + HEADER + FeatureLines(features) + ["", END, ""]) == Rendered(features)
  {
    var middle := HEADER + FeatureLines(features);
    assert [START] + HEADER + FeatureLines(features) + ["", END, ""] == [START] + (middle + ["", END, ""]);
    JoinBlock(START, middle, END);
  }

  method RenderChecklist(features: seq<Feature>) returns (text: string)
    ensures text == Rendered(features)
  {
    var lines, i := [START] + HEADER, 0;
    while i < |features|
      invariant i <= |features|
      invariant lines + FeatureLines(features[i..]) == [START] + HEADER + FeatureLines(features)
    {
      var feature := features[i];
      ghost var before := lines;
      lines := lines + ["- `" + feature.id + "` — " + feature.intent];
      ghost var titled := lines;
      for j := 0 to |feature.fixes|
        invariant lines + FixLines(feature.fixes[j..]) == titled + FixLines(feature.fixes)
      {
        lines := lines + ["  - Fix: " + feature.fixes[j]];
      }
      ghost var rest, fixed := FeatureLines(features[i + 1..]), FixLines(feature.fixes);
      assert features[i..][1..] == features[i + 1..];
      assert lines == titled + fixed;
      assert titled + fixed + rest == before + (titled[|before|..] + fixed + rest);
      i := i + 1;
    }
    assert features[i..] == [] && lines + [] == lines;
    RenderedIsJoin(features);
    text := Join(lines + ["", END, ""]);
  }

  // What one run of the command does to AGENTS.md.
  datatype SyncResult = UpToDate | Written | Stale | Failed(error: Rewritten)

  class AgentsFile {
    var text: string

    method SyncChecklist(features: seq<Feature>, check: bool) returns (r: SyncResult)
      modifies this
      ensures var expected := ReplaceChecklist(old(text), Rendered(features));
              && (r.Failed? <==> !expected.Text?) && (r.Failed? ==> r.error == expected)
              && (expected.Text? && expected.text == old(text) <==> r.UpToDate?)
              && (r.Stale? ==> check) && (r.Written? ==> !check)
              && text == if r.Written? then expected.text else old(text)
    {
      var checklist := RenderChecklist(features);
      var expected := ReplaceChecklist(text, checklist);
      if !expected.Text? { return Failed(expected); }
      if text == expected.text { return UpToDate; }
      if check { return Stale; }
      text := expected.text;
      return Written;
    }
  }
}
