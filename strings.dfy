/** The string operations of JavaScript that the modelled code relies on:
    `Array.prototype.join`, `String.prototype.split` on one character,
    `includes`, `startsWith`, `trim() === ""`, `toUpperCase` (ASCII letters
    only) and decimal rendering and parsing of numbers. */
module Strings {

  // ---------------------------------------------------------------------
  // join

  /** `xs.join(sep)`. */
  function Join(xs: seq<string>, sep: string): string
  {
    if |xs| == 0 then ""
    else if |xs| == 1 then xs[0]
    else xs[0] + sep + Join(xs[1..], sep)
  }

  /** Joining a list that starts with `x`. */
  lemma JoinCons(x: string, xs: seq<string>, sep: string)
    ensures Join([x] + xs, sep) == if xs == [] then x else x + sep + Join(xs, sep)
  {
    assert ([x] + xs)[1..] == xs;
  }

  // ---------------------------------------------------------------------
  // split on one character

  /** `s.split(c)` for a one-character separator: always at least one piece. */
  function Split(s: string, c: char): (r: seq<string>)
    ensures |r| >= 1
    decreases |s|
  {
    if |s| == 0 then [""]
    else
      var rest := Split(s[1..], c);
      if s[0] == c then [""] + rest
      else [[s[0]] + rest[0]] + rest[1..]
  }

  /** No piece of a split contains the separator. */
  lemma {:induction false} SplitPiecesFree(s: string, c: char)
    ensures forall i, j :: 0 <= i < |Split(s, c)| && 0 <= j < |Split(s, c)[i]| ==> Split(s, c)[i][j] != c
    decreases |s|
  {
    if |s| > 0 {
      SplitPiecesFree(s[1..], c);
    }
  }

  /** A separator-free prefix extends the first piece of a split. */
  lemma {:induction false} SplitFreePrefix(w: string, s: string, c: char)
    requires forall j :: 0 <= j < |w| ==> w[j] != c
    ensures Split(w + s, c) == [w + Split(s, c)[0]] + Split(s, c)[1..]
    decreases |w|
  {
    if |w| > 0 {
      SplitFreePrefix(w[1..], s, c);
      assert (w + s)[1..] == w[1..] + s;
      assert [w[0]] + (w[1..] + Split(s, c)[0]) == w + Split(s, c)[0];
    } else {
      var r := Split(s, c);
      assert w + s == s && w + r[0] == r[0];
      assert r == [r[0]] + r[1..];
    }
  }

  /** Splitting a join of separator-free pieces gives the pieces back. */
  lemma {:induction false} JoinSplit(ws: seq<string>, c: char)
    requires |ws| >= 1
    requires forall i, j :: 0 <= i < |ws| && 0 <= j < |ws[i]| ==> ws[i][j] != c
    ensures Split(Join(ws, [c]), c) == ws
    decreases |ws|
  {
    if |ws| == 1 {
      SplitFreePrefix(ws[0], "", c);
      assert ws[0] + "" == ws[0];
    } else {
      var rest := Join(ws[1..], [c]);
      JoinSplit(ws[1..], c);
      assert Join(ws, [c]) == ws[0] + ([c] + rest);
      SplitFreePrefix(ws[0], [c] + rest, c);
      assert ([c] + rest)[1..] == rest;
      assert ws[0] + "" == ws[0];
      assert ws == [ws[0]] + ws[1..];
    }
  }

  /** A string that starts with the separator splits into an empty first piece
      followed by the pieces of the rest. */
  lemma SplitLeading(s: string, c: char)
    requires |s| > 0 && s[0] == c
    ensures Split(s, c) == [""] + Split(s[1..], c)
  {
  }

  // ---------------------------------------------------------------------
  // prefixes and substrings

  /** `s.startsWith(p)`. */
  predicate StartsWith(s: string, p: string) {
    |p| <= |s| && s[..|p|] == p
  }

  /** `sub` occurs in `s` starting at position `i`. */
  predicate OccursAt(s: string, sub: string, i: int) {
    0 <= i && i + |sub| <= |s| && s[i..i + |sub|] == sub
  }

  /** `s.includes(sub)`, by scanning the start positions of `s`. */
  function Includes(s: string, sub: string): (r: bool)
    ensures r <==> exists i :: OccursAt(s, sub, i)
    decreases |s|
  {
    if StartsWith(s, sub) then
      assert OccursAt(s, sub, 0);
      true
    else if |s| == 0 then
      assert forall i :: OccursAt(s, sub, i) ==> i == 0;
      false
    else
      var r := Includes(s[1..], sub);
      if r then
        var i :| OccursAt(s[1..], sub, i);
        assert s[i + 1..i + 1 + |sub|] == s[1..][i..i + |sub|];
        assert OccursAt(s, sub, i + 1);
        true
      else
        assert forall i :: OccursAt(s, sub, i) && i >= 1 ==> OccursAt(s[1..], sub, i - 1) by {
          forall i | OccursAt(s, sub, i) && i >= 1 ensures OccursAt(s[1..], sub, i - 1) {
            assert s[1..][i - 1..i - 1 + |sub|] == s[i..i + |sub|];
          }
        }
        assert !OccursAt(s, sub, 0);
        false
  }

  /** A string containing `t` contains everything `t` contains. */
  lemma IncludesTransitive(s: string, t: string, u: string)
    requires Includes(s, t) && Includes(t, u)
    ensures Includes(s, u)
  {
    var i :| OccursAt(s, t, i);
    var j :| OccursAt(t, u, j);
    forall k | 0 <= k < |u| ensures s[i + j + k] == u[k] {
      assert u[k] == t[j + k] == s[i + j + k];
    }
    assert s[i + j..i + j + |u|] == u;
    assert OccursAt(s, u, i + j);
  }

  /** An occurrence agrees with `sub` character by character. */
  lemma OccursAtChar(s: string, sub: string, i: int, k: int)
    requires OccursAt(s, sub, i) && 0 <= k < |sub|
    ensures s[i + k] == sub[k]
  {
    assert s[i..i + |sub|][k] == s[i + k];
  }

  /** A string includes each of its prefixes. */
  lemma IncludesPrefix(s: string, p: string)
    requires StartsWith(s, p)
    ensures Includes(s, p)
  {
    assert OccursAt(s, p, 0);
  }

  // ---------------------------------------------------------------------
  // whitespace (what `String.prototype.trim` removes)

  /** ECMAScript WhiteSpace and LineTerminator code points. */
  predicate IsWhitespace(c: char) {
    c == '\t' || c == '\n' || c == '\U{000B}' || c == '\U{000C}' || c == '\r' || c == ' '
    || c == '\U{00A0}' || c == '\U{1680}' || ('\U{2000}' <= c <= '\U{200A}')
    || c == '\U{2028}' || c == '\U{2029}' || c == '\U{202F}' || c == '\U{205F}'
    || c == '\U{3000}' || c == '\U{FEFF}'
  }

  /** `s.trim() === ""`: every character is whitespace. */
  predicate IsBlank(s: string) {
    forall i :: 0 <= i < |s| ==> IsWhitespace(s[i])
  }

  // ---------------------------------------------------------------------
  // upper case

  /** `toUpperCase` on one character, for ASCII letters. */
  function UpperChar(c: char): char {
    if 'a' <= c <= 'z' then (c as int - 'a' as int + 'A' as int) as char else c
  }

  /** `s.toUpperCase()`, character by character. */
  function Upper(s: string): (r: string)
    ensures |r| == |s|
    ensures forall i :: 0 <= i < |s| ==> r[i] == UpperChar(s[i])
  {
    seq(|s|, i requires 0 <= i < |s| => UpperChar(s[i]))
  }

  /** Upper-casing commutes with taking a prefix (`toUpperCase().slice`). */
  lemma UpperPrefix(s: string, n: nat)
    requires n <= |s|
    ensures Upper(s)[..n] == Upper(s[..n])
  {
  }

  // ---------------------------------------------------------------------
  // decimal numbers

  predicate IsDigit(c: char) {
    '0' <= c <= '9'
  }

  predicate AllDigits(s: string) {
    forall i :: 0 <= i < |s| ==> IsDigit(s[i])
  }

  function DigitValue(c: char): nat
    requires IsDigit(c)
  {
    c as int - '0' as int
  }

  function DigitChar(d: nat): (c: char)
    requires d < 10
    ensures IsDigit(c) && DigitValue(c) == d
  {
    ('0' as int + d) as char
  }

  /** The value of a string of decimal digits (what `parseInt` yields for it). */
  function ParseDigits(s: string): nat
    requires AllDigits(s)
    decreases |s|
  {
    if |s| == 0 then 0
    else ParseDigits(s[..|s| - 1]) * 10 + DigitValue(s[|s| - 1])
  }

  /** Decimal rendering of a natural number, without leading zeros. */
  function NatToString(n: nat): (r: string)
    ensures |r| >= 1 && AllDigits(r)
    decreases n
  {
    if n < 10 then [DigitChar(n)]
    else NatToString(n / 10) + [DigitChar(n % 10)]
  }

  /** Decimal rendering of an integer (`String(n)` for an integral number). */
  function IntToString(n: int): string {
    if n < 0 then "-" + NatToString(-n) else NatToString(n)
  }

  /** Parsing the rendering of `n` gives back `n`. */
  lemma {:induction false} ParseNatToString(n: nat)
    ensures ParseDigits(NatToString(n)) == n
    decreases n
  {
    if n >= 10 {
      var s := NatToString(n);
      ParseNatToString(n / 10);
      assert s[..|s| - 1] == NatToString(n / 10);
    }
  }

  /** A leading zero does not change the value of a digit string. */
  lemma {:induction false} ParseLeadingZero(s: string)
    requires AllDigits(s)
    ensures AllDigits("0" + s) && ParseDigits("0" + s) == ParseDigits(s)
    decreases |s|
  {
    var z := "0" + s;
    assert AllDigits(z) by {
      forall i | 0 <= i < |z| ensures IsDigit(z[i]) {
        if i > 0 { assert z[i] == s[i - 1]; }
      }
    }
    if |s| > 0 {
      var init := s[..|s| - 1];
      ParseLeadingZero(init);
      assert z[..|z| - 1] == "0" + init;
    }
  }
}
