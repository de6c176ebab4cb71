// Decimal numerals in ASCII digits, and splitting a text at a separator.
module Decimal {
  import opened Options

  predicate Digits(s: string) {
    s != "" && forall i | 0 <= i < |s| :: '0' <= s[i] <= '9'
  }

  // No leading zero: the language of `0|[1-9]\d*`.
  predicate Canonical(s: string) {
    Digits(s) && (s[0] == '0' ==> |s| == 1)
  }

  function Value(s: string): nat
    requires forall i | 0 <= i < |s| :: '0' <= s[i] <= '9'
  {
    if s == "" then 0 else Value(s[..|s| - 1]) * 10 + (s[|s| - 1] - '0') as nat
  }

  function Digit(d: nat): (c: char)
    requires d < 10
    ensures '0' <= c <= '9' && (c - '0') as nat == d && (c == '0' <==> d == 0)
  {
    '0' + d as char
  }

  function Print(n: nat): string {
    if n < 10 then [Digit(n)] else Print(n / 10) + [Digit(n % 10)]
  }

  lemma {:induction false} ZeroOnly(s: string)
    requires Canonical(s)
    ensures Value(s) == 0 <==> s[0] == '0'
  {
    if |s| == 1 { assert s[..0] == ""; } else { ZeroOnly(s[..|s| - 1]); }
  }

  lemma Appended(front: string, digit: char)
    requires Canonical(front) && Value(front) > 0 && '0' <= digit <= '9'
    ensures Canonical(front + [digit]) && Value(front + [digit]) == Value(front) * 10 + (digit - '0') as nat
  {
  }

  lemma {:induction false} ReadPrinted(n: nat)
    ensures Canonical(Print(n)) && Value(Print(n)) == n
  {
    if n < 10 {
      assert Print(n)[..0] == "";
    } else {
      var front, digit := Print(n / 10), Digit(n % 10);
      ReadPrinted(n / 10);
      Appended(front, digit);
    }
  }

  lemma {:induction false} PrintRead(s: string)
    requires Canonical(s)
    ensures Print(Value(s)) == s
  {
    var front := s[..|s| - 1];
    assert s == front + [s[|s| - 1]];
    if |s| > 1 {
      PrintRead(front);
      ZeroOnly(front);
    }
  }

  // The texts before and after the first `c`.
  function SplitAt(s: string, c: char): (r: Option<(string, string)>)
    ensures r.Some? ==> s == r.value.0 + [c] + r.value.1 && c !in r.value.0
    ensures r.None? <==> c !in s
  {
    if s == "" then None
    else if s[0] == c then Some(("", s[1..]))
    else
      var rest := SplitAt(s[1..], c);
      if rest.None? then None else Some(([s[0]] + rest.value.0, rest.value.1))
  }

  lemma {:induction false} SplitJoined(a: string, c: char, b: string)
    requires c !in a
    ensures SplitAt(a + [c] + b, c) == Some((a, b))
  {
    var s := a + [c] + b;
    if a == "" {
      assert s[1..] == b;
    } else {
      assert s[1..] == a[1..] + [c] + b;
      SplitJoined(a[1..], c, b);
      assert [a[0]] + a[1..] == a;
    }
  }

  // The three texts of MAJOR.MINOR.PATCH.
  function Triple(s: string): Option<(string, string, string)> {
    var first := SplitAt(s, '.');
    if first.None? then None
    else
      var second := SplitAt(first.value.1, '.');
      if second.None? then None
      else
        var (a, b, c) := (first.value.0, second.value.0, second.value.1);
        if Digits(a) && Digits(b) && Digits(c) then Some((a, b, c)) else None
  }

  lemma NotADigit(s: string, c: char)
    requires Digits(s) && !('0' <= c <= '9')
    ensures c !in s
  {
  }

  lemma TripleJoined(a: string, b: string, c: string)
    requires Digits(a) && Digits(b) && Digits(c)
    ensures Triple(a + "." + b + "." + c) == Some((a, b, c))
  {
    NotADigit(a, '.');
    NotADigit(b, '.');
    assert a + "." + b + "." + c == a + ['.'] + (b + ['.'] + c);
    SplitJoined(a, '.', b + ['.'] + c);
    SplitJoined(b, '.', c);
  }
}
