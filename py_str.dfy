/**
 * The Python `str` built-ins the modelled code relies on: `isspace`, `strip`,
 * `split()` (on whitespace), `split(sep)`, `lower`, `upper`, `title`,
 * `startswith`, `in` (substring), `isdigit` and `str(int)`.
 *
 * Whitespace is Python's `str.isspace` set exactly. Case mappings and
 * `isdigit` cover ASCII and Latin-1 only.
 */
module PyStr {

  // ---------------------------------------------------------------------------
  // Character classes
  // ---------------------------------------------------------------------------

  /** Python's `str.isspace()` for one character. */
  predicate IsSpace(c: char) {
    || ('\t' <= c <= '\r')
    || ('\U{1C}' <= c <= '\U{1F}')
    || c == ' ' || c == '\U{85}' || c == '\U{A0}' || c == '\U{1680}'
    || ('\U{2000}' <= c <= '\U{200A}')
    || c == '\U{2028}' || c == '\U{2029}' || c == '\U{202F}' || c == '\U{205F}' || c == '\U{3000}'
  }

  predicate AllSpace(s: string) {
    forall i :: 0 <= i < |s| ==> IsSpace(s[i])
  }

  predicate IsAsciiDigit(c: char) { '0' <= c <= '9' }

  predicate IsAsciiUpper(c: char) { 'A' <= c <= 'Z' }

  /** Upper-case letters of Latin-1 (À..Þ without ×). */
  predicate IsLatinUpper(c: char) { '\U{C0}' <= c <= '\U{DE}' && c != '\U{D7}' }

  /** Lower-case letters of Latin-1 (à..þ without ÷). */
  predicate IsLatinLower(c: char) { '\U{E0}' <= c <= '\U{FE}' && c != '\U{F7}' }

  /**
   * Characters that have a case (Unicode's Lowercase or Uppercase), as far
   * as Latin-1 goes: the letters, ß, ÿ, µ and the ordinal indicators ª and º.
   */
  predicate IsCased(c: char) {
    || IsAsciiUpper(c) || ('a' <= c <= 'z')
    || IsLatinUpper(c) || IsLatinLower(c)
    || c == '\U{DF}' || c == '\U{FF}' || c == '\U{B5}' || c == '\U{AA}' || c == '\U{BA}'
  }

  /** `str.isdigit()` for one character: the ASCII digits and the superscripts ¹, ² and ³. */
  predicate IsDigitChar(c: char) {
    IsAsciiDigit(c) || c == '\U{B2}' || c == '\U{B3}' || c == '\U{B9}'
  }

  /** `str.isalnum()` for one character, on ASCII and Latin-1. */
  predicate IsAlnum(c: char) {
    || IsDigitChar(c) || IsCased(c)
    || ('\U{BC}' <= c <= '\U{BE}')
  }

  function LowerChar(c: char): (r: char)
    ensures IsAsciiUpper(c) ==> r as int == c as int + 32
    ensures !IsAsciiUpper(c) && !IsLatinUpper(c) ==> r == c
  {
    if IsAsciiUpper(c) || IsLatinUpper(c) then (c as int + 32) as char else c
  }

  /** The one-character upper case; ß, whose upper case is two letters, is left to `UpperOf`. */
  function UpperChar(c: char): (r: char)
    ensures 'a' <= c <= 'z' ==> r as int == c as int - 32
  {
    if 'a' <= c <= 'z' || IsLatinLower(c) then (c as int - 32) as char
    else if c == '\U{FF}' then '\U{178}'
    else if c == '\U{B5}' then '\U{39C}'
    else c
  }

  function Lower(s: string): (r: string)
    ensures |r| == |s|
    ensures forall i :: 0 <= i < |s| ==> r[i] == LowerChar(s[i])
  {
    if s == [] then [] else [LowerChar(s[0])] + Lower(s[1..])
  }

  /** The full upper case of one character: ß becomes "SS". */
  function UpperOf(c: char): (r: string)
    ensures c != '\U{DF}' ==> r == [UpperChar(c)]
  {
    if c == '\U{DF}' then "SS" else [UpperChar(c)]
  }

  /** The full title case of one character: ß becomes "Ss". */
  function TitleOf(c: char): (r: string)
    ensures c != '\U{DF}' ==> r == [UpperChar(c)]
  {
    if c == '\U{DF}' then "Ss" else [UpperChar(c)]
  }

  /** `str.upper()`: character by character, ß growing to two letters. */
  function Upper(s: string): (r: string)
    ensures |r| >= |s|
    ensures (forall i :: 0 <= i < |s| ==> s[i] != '\U{DF}') ==>
      |r| == |s| && forall i :: 0 <= i < |s| ==> r[i] == UpperChar(s[i])
  {
    if s == [] then [] else UpperOf(s[0]) + Upper(s[1..])
  }

  lemma UpperCons(h: char, t: string)
    ensures Upper([h] + t) == UpperOf(h) + Upper(t)
  {
    assert ([h] + t)[0] == h && ([h] + t)[1..] == t;
  }

  /** Upper-casing works piece by piece. */
  lemma {:induction false} UpperAppend(a: string, b: string)
    ensures Upper(a + b) == Upper(a) + Upper(b)
  {
    if a != [] {
      var h, t := a[0], a[1..];
      assert a == [h] + t && a + b == [h] + (t + b);
      UpperCons(h, t);
      UpperCons(h, t + b);
      UpperAppend(t, b);
      assert UpperOf(h) + (Upper(t) + Upper(b)) == (UpperOf(h) + Upper(t)) + Upper(b);
    } else {
      assert a + b == b;
    }
  }

  lemma UpperAppend3(a: string, c: string, b: string)
    ensures Upper(a + c + b) == Upper(a) + Upper(c) + Upper(b)
  {
    UpperAppend(a + c, b);
    UpperAppend(a, c);
  }

  /** The upper case of ß is "SS". */
  lemma UpperSharpS()
    ensures Upper(['\U{DF}']) == "SS"
  {
    assert ['\U{DF}'][1..] == [];
  }

  /** Capitals and spaces are their own upper case. */
  lemma {:induction false} UpperOfCapitals(s: string)
    requires forall i :: 0 <= i < |s| ==> IsAsciiUpper(s[i]) || s[i] == ' '
    ensures Upper(s) == s
  {
    if s != [] {
      UpperOfCapitals(s[1..]);
      assert s == [s[0]] + s[1..];
    }
  }

  /**
   * `str.title()`: a character that follows a cased character is
   * lower-cased, any other is title-cased.
   */
  function TitleFrom(s: string, prevCased: bool): (r: string)
    ensures |r| >= |s|
  {
    if s == [] then []
    else (if prevCased then [LowerChar(s[0])] else TitleOf(s[0])) + TitleFrom(s[1..], IsCased(s[0]))
  }

  function Title(s: string): (r: string)
    ensures |r| >= |s|
  {
    TitleFrom(s, false)
  }

  /** A word starting with ß title-cases to "Ss", and the ß counts as cased for what follows. */
  lemma TitleSharpSWord()
    ensures Title(['\U{DF}', 'A']) == "Ssa"
  {
    assert ['\U{DF}', 'A'][1..] == ['A'] && ['A'][1..] == [];
  }

  /** The ordinal indicators are cased: the letter after ª is lower-cased. */
  lemma TitleAfterOrdinal()
    ensures Title(['\U{AA}', 'B']) == ['\U{AA}', 'b']
  {
    assert ['\U{AA}', 'B'][1..] == ['B'] && ['B'][1..] == [];
  }

  // ---------------------------------------------------------------------------
  // strip
  // ---------------------------------------------------------------------------

  /** Every character of t[a..b] is whitespace. */
  predicate SpacesBetween(t: string, a: nat, b: nat)
    requires a <= b <= |t|
  {
    forall m :: a <= m < b ==> IsSpace(t[m])
  }

  lemma SpacesBetweenAllSpace(t: string, a: nat, b: nat)
    requires a <= b <= |t|
    ensures SpacesBetween(t, a, b) <==> AllSpace(t[a..b])
  {
    if SpacesBetween(t, a, b) {
      forall k | 0 <= k < b - a ensures IsSpace(t[a..b][k]) {
        assert t[a..b][k] == t[a + k];
      }
    }
    if AllSpace(t[a..b]) {
      forall m | a <= m < b ensures IsSpace(t[m]) {
        assert t[a..b][m - a] == t[m];
      }
    }
  }

  /** End of the whitespace run that starts at j. */
  function SpaceRunEnd(t: string, j: nat): (k: nat)
    requires j <= |t|
    ensures j <= k <= |t| && SpacesBetween(t, j, k) && (k == |t| || !IsSpace(t[k]))
    decreases |t| - j
  {
    if j == |t| || !IsSpace(t[j]) then j else SpaceRunEnd(t, j + 1)
  }

  /** Start of the whitespace run that ends at b. */
  function SpaceRunStart(t: string, b: nat): (k: nat)
    requires b <= |t|
    ensures k <= b && SpacesBetween(t, k, b) && (k == 0 || !IsSpace(t[k - 1]))
  {
    if b == 0 || !IsSpace(t[b - 1]) then b else SpaceRunStart(t, b - 1)
  }

  /** The run end is the only position with those two properties. */
  lemma {:induction false} SpaceRunEndAt(t: string, j: nat, k: nat)
    requires j <= k <= |t| && SpacesBetween(t, j, k) && (k == |t| || !IsSpace(t[k]))
    ensures SpaceRunEnd(t, j) == k
    decreases k - j
  {
    if j < k {
      SpaceRunEndAt(t, j + 1, k);
    }
  }

  /** The run start is the only position with those two properties. */
  lemma {:induction false} SpaceRunStartAt(t: string, k: nat, b: nat)
    requires k <= b <= |t| && SpacesBetween(t, k, b) && (k == 0 || !IsSpace(t[k - 1]))
    ensures SpaceRunStart(t, b) == k
    decreases b - k
  {
    if k < b {
      SpaceRunStartAt(t, k, b - 1);
    }
  }

  /** The last index in [a, b) holding '\n', or -1. */
  function LastNewlineBetween(t: string, a: nat, b: nat): (r: int)
    requires a <= b <= |t|
    ensures r == -1 || (a <= r < b && t[r] == '\n')
    ensures forall m :: a <= m < b && r < m ==> t[m] != '\n'
    decreases b - a
  {
    if a == b then -1
    else if t[b - 1] == '\n' then b - 1
    else LastNewlineBetween(t, a, b - 1)
  }

  /** The first index in [a, b) holding '\n', or -1. */
  function FirstNewlineBetween(t: string, a: nat, b: nat): (r: int)
    requires a <= b <= |t|
    ensures r == -1 || (a <= r < b && t[r] == '\n')
    ensures forall m :: a <= m < b && (r == -1 || m < r) ==> t[m] != '\n'
    decreases b - a
  {
    if a == b then -1
    else if t[a] == '\n' then a
    else FirstNewlineBetween(t, a + 1, b)
  }

  /** Where `strip` starts: after the leading whitespace. */
  function StripStart(s: string): (a: nat)
    ensures a <= |s|
  {
    SpaceRunEnd(s, 0)
  }

  /** Where `strip` ends: before the trailing whitespace, never before the start. */
  function StripEnd(s: string): (b: nat)
    ensures StripStart(s) <= b <= |s|
  {
    var a := StripStart(s);
    var e := SpaceRunStart(s, |s|);
    if e < a then a else e
  }

  /** `str.strip()` with no argument. */
  function Strip(s: string): (r: string)
    ensures |r| <= |s|
  {
    s[StripStart(s)..StripEnd(s)]
  }

  /** `not s.strip()`: the string is empty or only whitespace. */
  predicate IsBlank(s: string) { AllSpace(s) }

  /**
   * Where `strip` cuts: it removes whitespace only, from both ends, nothing is
   * left exactly when the text is blank, and otherwise what is left begins and
   * ends with a non-whitespace character.
   */
  lemma StripBounds(s: string)
    ensures var a, b := StripStart(s), StripEnd(s);
      && SpacesBetween(s, 0, a) && SpacesBetween(s, b, |s|)
      && (IsBlank(s) <==> a == b)
      && (a < b ==> !IsSpace(s[a]) && !IsSpace(s[b - 1]))
  {
    var a, b := StripStart(s), StripEnd(s);
    SpacesBetweenAllSpace(s, 0, |s|);
    assert s[0..|s|] == s;
    if SpaceRunStart(s, |s|) < a {
      assert SpacesBetween(s, a, |s|);
      assert a == |s|;
    }
  }

  /** The text is its leading whitespace, its strip and its trailing whitespace. */
  lemma StripSpec(s: string)
    ensures var a, b := StripStart(s), StripEnd(s);
      && SpacesBetween(s, 0, a) && SpacesBetween(s, b, |s|)
      && s == s[..a] + Strip(s) + s[b..]
  {
    StripBounds(s);
    var a, b := StripStart(s), StripEnd(s);
    assert s == s[..a] + s[a..b] + s[b..];
  }

  lemma StripEmptyIffBlank(s: string)
    ensures Strip(s) == [] <==> IsBlank(s)
  {
    StripBounds(s);
  }

  /** Both ends of a non-empty strip are non-whitespace. */
  lemma StripEnds(s: string)
    ensures var r := Strip(s); r == [] || (!IsSpace(r[0]) && !IsSpace(r[|r| - 1]))
  {
    StripBounds(s);
  }

  /** The non-whitespace characters of a string, in order. */
  function NonSpace(s: string): (r: string)
    ensures |r| <= |s|
  {
    if s == [] then []
    else (if IsSpace(s[0]) then [] else [s[0]]) + NonSpace(s[1..])
  }

  lemma {:induction false} NonSpaceAppend(a: string, b: string)
    ensures NonSpace(a + b) == NonSpace(a) + NonSpace(b)
  {
    if a == [] {
      assert a + b == b;
    } else {
      var h := if IsSpace(a[0]) then [] else [a[0]];
      assert (a + b)[0] == a[0] && (a + b)[1..] == a[1..] + b;
      NonSpaceAppend(a[1..], b);
      assert NonSpace(a + b) == h + (NonSpace(a[1..]) + NonSpace(b));
      assert NonSpace(a) == h + NonSpace(a[1..]);
    }
  }

  lemma {:induction false} NonSpaceOfSpace(s: string)
    requires AllSpace(s)
    ensures NonSpace(s) == []
  {
    if s != [] {
      NonSpaceOfSpace(s[1..]);
    }
  }

  /** `strip` never loses a non-whitespace character. */
  lemma StripKeepsNonSpace(s: string)
    ensures NonSpace(Strip(s)) == NonSpace(s)
  {
    StripSpec(s);
    var a, b := StripStart(s), StripEnd(s);
    SpacesBetweenAllSpace(s, 0, a);
    SpacesBetweenAllSpace(s, b, |s|);
    assert s[..a] == s[0..a];
    NonSpaceAppend(s[..a] + Strip(s), s[b..]);
    NonSpaceAppend(s[..a], Strip(s));
    NonSpaceOfSpace(s[..a]);
    NonSpaceOfSpace(s[b..]);
  }

  lemma {:induction false} BlankHasNoNonSpace(s: string)
    ensures IsBlank(s) <==> NonSpace(s) == []
  {
    if s != [] {
      BlankHasNoNonSpace(s[1..]);
      if IsBlank(s[1..]) && IsSpace(s[0]) {
        forall i | 0 <= i < |s| ensures IsSpace(s[i]) {
          if i > 0 { assert s[i] == s[1..][i - 1]; }
        }
      }
    }
  }

  /**
   * When t[a..b] is non-empty, begins and ends with non-whitespace and only
   * whitespace surrounds it, it is what `strip` returns.
   */
  lemma StripAt(t: string, a: nat, b: nat)
    requires a < b <= |t| && SpacesBetween(t, 0, a) && SpacesBetween(t, b, |t|)
    requires !IsSpace(t[a]) && !IsSpace(t[b - 1])
    ensures StripStart(t) == a && StripEnd(t) == b && Strip(t) == t[a..b]
  {
    SpaceRunEndAt(t, 0, a);
    SpaceRunStartAt(t, b, |t|);
  }

  /** Stripping surrounding whitespace from a padded word gives the word back. */
  lemma StripPadded(w1: string, x: string, w2: string)
    requires AllSpace(w1) && AllSpace(w2)
    requires x != [] && !IsSpace(x[0]) && !IsSpace(x[|x| - 1])
    ensures Strip(w1 + x + w2) == x
  {
    var u := w1 + x + w2;
    var a, b := |w1|, |w1| + |x|;
    assert SpacesBetween(u, 0, a) by {
      forall m | 0 <= m < a ensures IsSpace(u[m]) { assert u[m] == w1[m]; }
    }
    assert SpacesBetween(u, b, |u|) by {
      forall m | b <= m < |u| ensures IsSpace(u[m]) { assert u[m] == w2[m - b]; }
    }
    assert u[a] == x[0] && u[b - 1] == x[|x| - 1];
    StripAt(u, a, b);
    assert u[a..b] == x;
  }

  /** Text with no surrounding whitespace is its own strip. */
  lemma StripOfStripped(x: string)
    requires x != [] && !IsSpace(x[0]) && !IsSpace(x[|x| - 1])
    ensures Strip(x) == x
  {
    StripPadded([], x, []);
    assert [] + x + [] == x;
  }

  /** Stripping twice is stripping once. */
  lemma StripIdempotent(s: string)
    ensures Strip(Strip(s)) == Strip(s)
  {
    StripEnds(s);
    if Strip(s) != [] {
      StripOfStripped(Strip(s));
    }
  }

  // ---------------------------------------------------------------------------
  // split() on whitespace
  // ---------------------------------------------------------------------------

  /** End of the run of non-whitespace characters that starts at a. */
  function WordEnd(s: string, a: nat): (b: nat)
    requires a <= |s|
    ensures a <= b <= |s| && (b == |s| || IsSpace(s[b]))
    ensures forall m :: a <= m < b ==> !IsSpace(s[m])
    decreases |s| - a
  {
    if a == |s| || IsSpace(s[a]) then a else WordEnd(s, a + 1)
  }

  /** The words of s[j..]: its maximal runs of non-whitespace characters. */
  function WordsFrom(s: string, j: nat): (ws: seq<string>)
    requires j <= |s|
    ensures forall i :: 0 <= i < |ws| ==> ws[i] != [] && NoSpace(ws[i])
    decreases |s| - j
  {
    var a := SpaceRunEnd(s, j);
    if a == |s| then []
    else
      var b := WordEnd(s, a);
      assert NoSpace(s[a..b]) by {
        forall m | 0 <= m < b - a ensures !IsSpace(s[a..b][m]) { assert s[a..b][m] == s[a + m]; }
      }
      [s[a..b]] + WordsFrom(s, b)
  }

  /** `s.split()`. */
  function Words(s: string): seq<string> {
    WordsFrom(s, 0)
  }

  predicate NoSpace(w: string) {
    forall i :: 0 <= i < |w| ==> !IsSpace(w[i])
  }

  /** Words need a separator between them, so s[j..] holds at most (|s| - j + 1) / 2. */
  lemma {:induction false} WordsFromCountBound(s: string, j: nat)
    requires j <= |s|
    ensures |WordsFrom(s, j)| * 2 <= |s| - j + 1
    ensures j < |s| && IsSpace(s[j]) ==> |WordsFrom(s, j)| * 2 <= |s| - j
    decreases |s| - j
  {
    var a := SpaceRunEnd(s, j);
    if a < |s| {
      var b := WordEnd(s, a);
      WordsFromCountBound(s, b);
    }
  }

  lemma WordsCountBound(s: string)
    ensures |Words(s)| * 2 <= |s| + 1
  {
    WordsFromCountBound(s, 0);
  }

  // ---------------------------------------------------------------------------
  // split(sep) and join
  // ---------------------------------------------------------------------------

  predicate OccursAt(s: string, sep: string, i: nat) {
    i + |sep| <= |s| && s[i..i + |sep|] == sep
  }

  /** Index of the first occurrence of `sep` in `s`, as `str.find`. */
  function Find(s: string, sep: string): (r: int)
    requires |sep| > 0
    ensures -1 <= r <= |s|
    ensures r >= 0 ==> OccursAt(s, sep, r)
    ensures r >= 0 ==> forall j :: 0 <= j < r ==> !OccursAt(s, sep, j)
    ensures r == -1 ==> forall j :: 0 <= j <= |s| ==> !OccursAt(s, sep, j)
    decreases |s|
  {
    if |s| < |sep| then -1
    else if s[..|sep|] == sep then 0
    else
      var r := Find(s[1..], sep);
      assert forall j :: 1 <= j <= |s| ==> (OccursAt(s, sep, j) <==> OccursAt(s[1..], sep, j - 1)) by {
        forall j | 1 <= j <= |s| {
          OccursAtTail(s, sep, j);
        }
      }
      if r == -1 then -1 else r + 1
  }

  /** An occurrence at j >= 1 is an occurrence at j - 1 in the text without its first character. */
  lemma OccursAtTail(s: string, sep: string, j: nat)
    requires 1 <= j <= |s|
    ensures OccursAt(s, sep, j) <==> OccursAt(s[1..], sep, j - 1)
  {
    if j + |sep| <= |s| {
      assert s[1..][j - 1..j - 1 + |sep|] == s[j..j + |sep|];
    }
  }

  /** `s.split(sep)` for a non-empty separator. */
  function SplitOn(s: string, sep: string): (parts: seq<string>)
    requires |sep| > 0
    ensures |parts| >= 1
    decreases |s|
  {
    var i := Find(s, sep);
    if i < 0 then [s] else [s[..i]] + SplitOn(s[i + |sep|..], sep)
  }

  /** `sep.join(parts)`. */
  function Join(parts: seq<string>, sep: string): string {
    if parts == [] then []
    else if |parts| == 1 then parts[0]
    else parts[0] + sep + Join(parts[1..], sep)
  }

  /** Splitting and joining with the same separator gives the text back. */
  lemma {:induction false} JoinSplitOn(s: string, sep: string)
    requires |sep| > 0
    ensures Join(SplitOn(s, sep), sep) == s
    decreases |s|
  {
    var i := Find(s, sep);
    if i >= 0 {
      var rest := s[i + |sep|..];
      var tail := SplitOn(rest, sep);
      JoinSplitOn(rest, sep);
      calc {
        Join(SplitOn(s, sep), sep);
        { SplitOnFound(s, sep); }
        Join([s[..i]] + tail, sep);
        { JoinCons(s[..i], tail, sep); }
        s[..i] + sep + Join(tail, sep);
        s[..i] + sep + rest;
        { AroundOccurrence(s, sep, i); }
        s;
      }
    }
  }

  /** When sep occurs, the first part ends at its first occurrence. */
  lemma SplitOnFound(s: string, sep: string)
    requires |sep| > 0 && Find(s, sep) >= 0
    ensures var i := Find(s, sep);
      SplitOn(s, sep) == [s[..i]] + SplitOn(s[i + |sep|..], sep)
  {
  }

  /** Joining a head in front of a non-empty list puts one separator after the head. */
  lemma JoinCons(head: string, tail: seq<string>, sep: string)
    requires |tail| >= 1
    ensures Join([head] + tail, sep) == head + sep + Join(tail, sep)
  {
    assert ([head] + tail)[1..] == tail;
  }

  /** A text is what comes before an occurrence of sep, sep, and what comes after it. */
  lemma AroundOccurrence(s: string, sep: string, i: nat)
    requires OccursAt(s, sep, i)
    ensures s == s[..i] + sep + s[i + |sep|..]
  {
    assert s == s[..i] + s[i..i + |sep|] + s[i + |sep|..];
  }

  // ---------------------------------------------------------------------------
  // Prefixes and substrings
  // ---------------------------------------------------------------------------

  predicate StartsWith(s: string, p: string) {
    |p| <= |s| && s[..|p|] == p
  }

  /** A prefix check character by character. */
  lemma StartsWithChars(s: string, p: string)
    requires |p| <= |s| && forall i :: 0 <= i < |p| ==> s[i] == p[i]
    ensures StartsWith(s, p)
  {
    assert s[..|p|] == p;
  }

  /** A prefix of a string is a prefix of any extension of it. */
  lemma StartsWithAppend(s: string, t: string, p: string)
    requires StartsWith(s, p)
    ensures StartsWith(s + t, p)
  {
    assert (s + t)[..|p|] == s[..|p|];
  }

  predicate EndsWith(s: string, p: string) {
    |p| <= |s| && s[|s| - |p|..] == p
  }

  /** Python's `sub in s`. */
  predicate Contains(s: string, sub: string) {
    exists i: nat :: i <= |s| && OccursAt(s, sub, i)
  }

  /** `str.isdigit()`: non-empty and all digits in its sense, superscripts included. */
  predicate IsDigits(s: string) {
    |s| > 0 && forall i :: 0 <= i < |s| ==> IsDigitChar(s[i])
  }

  /** End of the run of ASCII digits from i. */
  function DigitRunEnd(u: string, i: nat): (e: nat)
    requires i <= |u|
    ensures i <= e <= |u| && (e == |u| || !IsAsciiDigit(u[e]))
    ensures forall j :: i <= j < e ==> IsAsciiDigit(u[j])
    decreases |u| - i
  {
    if i == |u| || !IsAsciiDigit(u[i]) then i else DigitRunEnd(u, i + 1)
  }

  // ---------------------------------------------------------------------------
  // str(int) and int(str)
  // ---------------------------------------------------------------------------

  function DigitChar(d: nat): char
    requires d < 10
  {
    ('0' as int + d) as char
  }

  /** `str(n)` for a non-negative integer. */
  function NatToString(n: nat): (r: string)
    ensures IsDigits(r)
    ensures n > 0 ==> r[0] != '0'
  {
    if n < 10 then [DigitChar(n)] else NatToString(n / 10) + [DigitChar(n % 10)]
  }

  /** `str(n)` writes ASCII digits only. */
  lemma {:induction false} NatToStringAscii(n: nat)
    ensures forall i :: 0 <= i < |NatToString(n)| ==> IsAsciiDigit(NatToString(n)[i])
  {
    if n >= 10 {
      NatToStringAscii(n / 10);
      assert NatToString(n) == NatToString(n / 10) + [DigitChar(n % 10)];
    }
  }

  /** `str(n)` for any integer. */
  function IntToString(n: int): string {
    if n < 0 then "-" + NatToString(-n) else NatToString(n)
  }

  /** `int(s)` for a string of ASCII digits. */
  function DigitValue(c: char): nat
    requires IsAsciiDigit(c)
  {
    c as int - '0' as int
  }

  function DigitsValue(s: string): (v: nat)
    requires forall i :: 0 <= i < |s| ==> IsAsciiDigit(s[i])
  {
    if s == [] then 0 else DigitsValue(s[..|s| - 1]) * 10 + DigitValue(s[|s| - 1])
  }

  lemma {:induction false} DigitsValueOfNatToString(n: nat)
    ensures forall i :: 0 <= i < |NatToString(n)| ==> IsAsciiDigit(NatToString(n)[i])
    ensures DigitsValue(NatToString(n)) == n
  {
    NatToStringAscii(n);
    if n >= 10 {
      DigitsValueOfNatToString(n / 10);
      var s := NatToString(n);
      assert s[..|s| - 1] == NatToString(n / 10);
    }
  }
}
