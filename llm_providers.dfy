/**
 * The LLM clients of services/llm_providers.py: Markdown fence removal, the
 * recovery scanner that finds the first balanced JSON value in a reply, and the
 * error-shaping branches of both clients. HTTP calls are parameters returning
 * an outcome datatype; `json.loads` is the parameter `decode`.
 */
module LlmProviders {
  import opened Wrappers
  import opened PyStr
  import opened JsonValue

  /** `json.loads`: Some(value) when the text parses, None when it raises. */
  type Decoder = string -> Option<Value>

  // ---------------------------------------------------------------------------
  // _strip_code_fences
  // ---------------------------------------------------------------------------

  /** Three backticks at i. */
  predicate TicksAt(t: string, i: nat) {
    i + 3 <= |t| && t[i] == '`' && t[i + 1] == '`' && t[i + 2] == '`'
  }

  /**
   * The optional language tag "json" at i under re.IGNORECASE. Python's
   * case-insensitive matching also lets 's' match U+017F (long s).
   */
  predicate JsonTagAt(t: string, i: nat) {
    i + 4 <= |t|
    && (t[i] == 'j' || t[i] == 'J')
    && (t[i + 1] == 's' || t[i + 1] == 'S' || t[i + 1] == '\U{17F}')
    && (t[i + 2] == 'o' || t[i + 2] == 'O')
    && (t[i + 3] == 'n' || t[i + 3] == 'N')
  }

  /**
   * t[..k] is a match of the opening-fence pattern: leading whitespace, three
   * backticks, an optional "json" tag, then whitespace ending in a newline.
   */
  predicate FenceHeader(t: string, k: nat) {
    var i := SpaceRunEnd(t, 0);
    i + 3 < k <= |t| && TicksAt(t, i) && t[k - 1] == '\n'
    && (SpacesBetween(t, i + 3, k) || (i + 7 < k && JsonTagAt(t, i + 3) && SpacesBetween(t, i + 7, k)))
  }

  /**
   * Length of the opening fence the first substitution removes, 0 when the
   * pattern does not match: after the backticks and the tag, if present, the
   * whitespace run up to its last newline.
   */
  function LeadingFenceEnd(t: string): (e: nat)
    ensures e <= |t|
  {
    var i := SpaceRunEnd(t, 0);
    if !TicksAt(t, i) then 0
    else
      var j := if JsonTagAt(t, i + 3) then i + 7 else i + 3;
      var ln := LastNewlineBetween(t, j, SpaceRunEnd(t, j));
      if ln < 0 then 0 else ln + 1
  }

  /**
   * The first substitution removes a match of the pattern, and the longest
   * one, which is the one the backtracking regex engine picks; nothing is
   * removed when there is no match.
   */
  lemma LeadingFenceEndSpec(t: string)
    ensures var e := LeadingFenceEnd(t);
      (e > 0 ==> FenceHeader(t, e)) && forall k: nat :: FenceHeader(t, k) ==> k <= e
  {
    LeadingFenceEndMatches(t);
    forall k: nat | FenceHeader(t, k) ensures k <= LeadingFenceEnd(t) {
      LeadingFenceEndLongest(t, k);
    }
  }

  /** A cut the function reports is a match of the opening-fence pattern. */
  lemma LeadingFenceEndMatches(t: string)
    ensures LeadingFenceEnd(t) > 0 ==> FenceHeader(t, LeadingFenceEnd(t))
  {
  }

  /** No match of the opening-fence pattern is longer than the cut the function reports. */
  lemma LeadingFenceEndLongest(t: string, k: nat)
    requires FenceHeader(t, k)
    ensures k <= LeadingFenceEnd(t)
  {
    var i := SpaceRunEnd(t, 0);
    var tagged := JsonTagAt(t, i + 3);
    var j := if tagged then i + 7 else i + 3;
    var w := SpaceRunEnd(t, j);
    if tagged {
      assert !SpacesBetween(t, i + 3, k) by { assert !IsSpace(t[i + 3]); }
    }
    assert SpacesBetween(t, j, k);
    assert k <= w;
    assert t[k - 1] == '\n';
  }

  /**
   * t[p..] is a match of the closing-fence pattern: a newline, whitespace,
   * three backticks and trailing whitespace up to the end of the text.
   */
  predicate FenceFooter(t: string, p: nat) {
    var q := SpaceRunStart(t, |t|) - 3;
    0 <= p < q && TicksAt(t, q) && t[p] == '\n' && SpacesBetween(t, p, q)
  }

  /**
   * Where the second substitution cuts the text, |t| when the pattern does not
   * match: the first newline of the whitespace run before the final backticks.
   */
  function TrailingFenceStart(t: string): (p: nat)
    ensures p <= |t|
  {
    var q := SpaceRunStart(t, |t|) - 3;
    if q < 0 || !TicksAt(t, q) then |t|
    else
      var f := FirstNewlineBetween(t, SpaceRunStart(t, q), q);
      if f < 0 then |t| else f
  }

  /** The scan tries positions left to right, so the cut is the leftmost match. */
  lemma TrailingFenceStartSpec(t: string)
    ensures var p := TrailingFenceStart(t);
      (p < |t| ==> FenceFooter(t, p)) && forall p': nat :: FenceFooter(t, p') ==> p <= p'
  {
    var p := TrailingFenceStart(t);
    var q := SpaceRunStart(t, |t|) - 3;
    if q >= 0 && TicksAt(t, q) {
      var s := SpaceRunStart(t, q);
      var f := FirstNewlineBetween(t, s, q);
      forall p': nat | FenceFooter(t, p') ensures p <= p' {
        assert s <= p';
      }
    }
  }

  /** `SonnetClient._strip_code_fences`. */
  function StripCodeFences(text: string): string {
    var afterHeader := text[LeadingFenceEnd(text)..];
    Strip(afterHeader[..TrailingFenceStart(afterHeader)])
  }

  /**
   * A text opening with "```json" and a newline at index 7, followed by
   * whitespace up to k: the opening fence ends between 8 and k.
   */
  lemma {:induction false} TaggedHeaderEnd(t: string, k: nat)
    requires 8 <= k <= |t| && TicksAt(t, 0) && JsonTagAt(t, 3) && t[7] == '\n'
    requires SpacesBetween(t, 8, k) && (k == |t| || !IsSpace(t[k]))
    ensures 8 <= LeadingFenceEnd(t) <= k
  {
    assert SpaceRunEnd(t, 0) == 0;
    assert SpacesBetween(t, 7, k);
    SpaceRunEndAt(t, 7, k);
    var ln := LastNewlineBetween(t, 7, k);
    assert ln >= 7 by { assert t[7] == '\n'; }
  }

  lemma FencedSuffix(body: string, e: nat)
    requires 8 <= e <= 8 + |body|
    ensures ("```json\n" + body + "\n```")[e..] == body[e - 8..] + "\n```"
  {
  }

  /**
   * The opening fence of "```json\n" + body ends inside the body's leading
   * whitespace: what remains is body[d..] + "\n```" with d <= StripStart(body).
   */
  lemma FencedHeaderCut(body: string) returns (d: nat)
    requires !IsBlank(body)
    ensures d <= StripStart(body)
    ensures var t := "```json\n" + body + "\n```";
      t[LeadingFenceEnd(t)..] == body[d..] + "\n```"
  {
    var t := "```json\n" + body + "\n```";
    assert TicksAt(t, 0) && JsonTagAt(t, 3) && t[7] == '\n';
    var a := StripStart(body);
    assert a < |body| by { SpacesBetweenAllSpace(body, 0, |body|); }
    assert SpacesBetween(t, 8, 8 + a) by {
      forall m | 8 <= m < 8 + a ensures IsSpace(t[m]) { assert t[m] == body[m - 8]; }
    }
    assert t[8 + a] == body[a];
    TaggedHeaderEnd(t, 8 + a);
    var e := LeadingFenceEnd(t);
    d := e - 8;
    FencedSuffix(body, e);
  }

  /**
   * A text ending in a newline at n and three backticks, with whitespace from
   * c up to n and a non-whitespace character just before c: the closing fence
   * is cut between c and n.
   */
  lemma {:induction false} FooterCutBetween(u: string, c: nat, n: nat)
    requires n + 4 == |u| && u[n] == '\n' && TicksAt(u, n + 1)
    requires 0 < c <= n && SpacesBetween(u, c, n) && !IsSpace(u[c - 1])
    ensures c <= TrailingFenceStart(u) <= n
  {
    assert SpaceRunStart(u, |u|) == |u|;
    assert SpacesBetween(u, c, n + 1);
    SpaceRunStartAt(u, c, n + 1);
    var p := FirstNewlineBetween(u, c, n + 1);
    assert p >= 0 by { assert u[n] == '\n'; }
  }

  /**
   * The closing fence of body[d..] + "\n```" is cut inside the body's trailing
   * whitespace, and what is left strips to the body's strip.
   */
  lemma FencedFooterCut(body: string, d: nat)
    requires !IsBlank(body) && d <= StripStart(body)
    ensures var u := body[d..] + "\n```";
      Strip(u[..TrailingFenceStart(u)]) == Strip(body)
  {
    var u := body[d..] + "\n```";
    var n := |body| - d;
    assert u[n] == '\n' && TicksAt(u, n + 1);
    var a, b := StripStart(body), StripEnd(body);
    StripBounds(body);
    assert SpacesBetween(u, b - d, n) by {
      forall m | b - d <= m < n ensures IsSpace(u[m]) { assert u[m] == body[d + m]; }
    }
    assert u[b - d - 1] == body[b - 1];
    FooterCutBetween(u, b - d, n);
    PaddedPrefixStrip(body, d, TrailingFenceStart(u));
  }

  /** Cutting body[d..] + "\n```" inside the trailing whitespace leaves the body's strip. */
  lemma PaddedPrefixStrip(body: string, d: nat, p: nat)
    requires !IsBlank(body) && d <= StripStart(body) && StripEnd(body) - d <= p <= |body| - d + 3
    requires SpacesBetween(body[d..] + "\n```", StripEnd(body) - d, p)
    ensures Strip((body[d..] + "\n```")[..p]) == Strip(body)
  {
    var v := (body[d..] + "\n```")[..p];
    var a, b := StripStart(body), StripEnd(body);
    StripBounds(body);
    PaddedPrefixLeading(body, d, p);
    PaddedPrefixTrailing(body, d, p);
    StripAt(v, a - d, b - d);
    FencedSlice(body, d, p, a, b);
  }

  lemma PaddedPrefixLeading(body: string, d: nat, p: nat)
    requires !IsBlank(body) && d <= StripStart(body) && StripEnd(body) - d <= p <= |body| - d + 3
    ensures var v, a, b := (body[d..] + "\n```")[..p], StripStart(body), StripEnd(body);
      a < b && SpacesBetween(v, 0, a - d) && v[a - d] == body[a] && v[b - d - 1] == body[b - 1]
  {
    var v := (body[d..] + "\n```")[..p];
    var a, b := StripStart(body), StripEnd(body);
    StripBounds(body);
    assert SpacesBetween(v, 0, a - d) by {
      forall m | 0 <= m < a - d ensures IsSpace(v[m]) { assert v[m] == body[d + m]; }
    }
  }

  lemma PaddedPrefixTrailing(body: string, d: nat, p: nat)
    requires d <= StripStart(body) && StripEnd(body) - d <= p <= |body| - d + 3
    requires SpacesBetween(body[d..] + "\n```", StripEnd(body) - d, p)
    ensures SpacesBetween((body[d..] + "\n```")[..p], StripEnd(body) - d, p)
  {
    var u := body[d..] + "\n```";
    forall m | StripEnd(body) - d <= m < p ensures IsSpace(u[..p][m]) { assert u[..p][m] == u[m]; }
  }

  lemma FencedSlice(body: string, d: nat, p: nat, a: nat, b: nat)
    requires d <= a <= b <= |body| && b - d <= p <= |body| - d + 4
    ensures (body[d..] + "\n```")[..p][a - d..b - d] == body[a..b]
  {
    var v := (body[d..] + "\n```")[..p];
    forall m | 0 <= m < b - a ensures v[a - d..b - d][m] == body[a..b][m] {
      assert v[a - d + m] == body[a + m];
    }
  }

  /** A fenced "```json" block gives back its body, stripped. */
  lemma StripCodeFencesFenced(body: string)
    requires !IsBlank(body)
    ensures StripCodeFences("```json\n" + body + "\n```") == Strip(body)
  {
    var d := FencedHeaderCut(body);
    FencedFooterCut(body, d);
  }

  /** Text with no backtick run of three is only stripped. */
  lemma StripCodeFencesNoFence(text: string)
    requires !Contains(text, "```")
    ensures StripCodeFences(text) == Strip(text)
  {
    var i := SpaceRunEnd(text, 0);
    TicksOccur(text, i);
    assert text[0..] == text;
    var q := SpaceRunStart(text, |text|) - 3;
    if q >= 0 {
      TicksOccur(text, q);
    }
    assert text[..|text|] == text;
  }

  /** Three backticks at i are an occurrence of "```" at i. */
  lemma TicksOccur(text: string, i: nat)
    ensures TicksAt(text, i) ==> i <= |text| && OccursAt(text, "```", i)
  {
    if TicksAt(text, i) {
      assert text[i..i + 3] == "```";
    }
  }

  // ---------------------------------------------------------------------------
  // _extract_first_json: the scanner as a specification
  // ---------------------------------------------------------------------------

  predicate IsOpener(c: char) { c == '{' || c == '[' }
  predicate IsCloser(c: char) { c == '}' || c == ']' }

  /** The two bracket pairs the scanner accepts. */
  predicate Pairs(opener: char, closer: char) {
    (opener == '{' && closer == '}') || (opener == '[' && closer == ']')
  }

  /**
   * The inner loop of the scanner from position i with the given bracket stack
   * (top at the end) and string/escape flags. Some(e) when the scan reaches a
   * closer at e that empties the stack and text[start..e + 1] parses; None when
   * the start is abandoned or the text runs out.
   */
  function Scan(t: string, start: nat, i: nat, stack: seq<char>, inStr: bool, esc: bool, decode: Decoder): Option<nat>
    requires start <= i <= |t|
    decreases |t| - i
  {
    if i == |t| then None
    else
      var ch := t[i];
      if inStr then
        if esc then Scan(t, start, i + 1, stack, inStr, false, decode)
        else if ch == '\\' then Scan(t, start, i + 1, stack, inStr, true, decode)
        else if ch == '"' then Scan(t, start, i + 1, stack, false, esc, decode)
        else Scan(t, start, i + 1, stack, inStr, esc, decode)
      else if ch == '"' then Scan(t, start, i + 1, stack, true, esc, decode)
      else if IsOpener(ch) then Scan(t, start, i + 1, stack + [ch], inStr, esc, decode)
      else if IsCloser(ch) then
        if stack == [] then None
        else if !Pairs(stack[|stack| - 1], ch) then None
        else if |stack| == 1 then (if decode(t[start..i + 1]).Some? then Some(i) else None)
        else Scan(t, start, i + 1, stack[..|stack| - 1], inStr, esc, decode)
      else Scan(t, start, i + 1, stack, inStr, esc, decode)
  }

  /** What the scan finds from an opener at `start`, with the initial state. */
  function ScanFrom(t: string, start: nat, decode: Decoder): Option<nat>
    requires start <= |t|
  {
    Scan(t, start, start, [], false, false, decode)
  }

  /** A start position the scanner accepts. */
  predicate Works(t: string, start: nat, decode: Decoder) {
    start < |t| && IsOpener(t[start]) && ScanFrom(t, start, decode).Some?
  }

  /**
   * What a successful scan returns: a closer at e after `start`, pairing with
   * the bottom of the stack, and a candidate that parses.
   */
  lemma {:induction false} ScanResult(t: string, start: nat, i: nat, stack: seq<char>, inStr: bool, esc: bool, decode: Decoder)
    requires start <= i <= |t| && start < |t| && IsOpener(t[start])
    requires stack == [] ==> i == start && !inStr
    requires stack != [] ==> stack[0] == t[start]
    requires Scan(t, start, i, stack, inStr, esc, decode).Some?
    ensures var e := Scan(t, start, i, stack, inStr, esc, decode).value;
      i <= e < |t| && IsCloser(t[e]) && decode(t[start..e + 1]).Some? && Pairs(t[start], t[e])
    decreases |t| - i, 1
  {
    if inStr {
      ScanResultInString(t, start, i, stack, esc, decode);
    } else {
      ScanResultOutside(t, start, i, stack, esc, decode);
    }
  }

  /** The scan inside a string literal: only quotes and escapes change the state. */
  lemma {:induction false} ScanResultInString(t: string, start: nat, i: nat, stack: seq<char>, esc: bool, decode: Decoder)
    requires start <= i <= |t| && start < |t| && IsOpener(t[start])
    requires stack != [] && stack[0] == t[start]
    requires Scan(t, start, i, stack, true, esc, decode).Some?
    ensures var e := Scan(t, start, i, stack, true, esc, decode).value;
      i <= e < |t| && IsCloser(t[e]) && decode(t[start..e + 1]).Some? && Pairs(t[start], t[e])
    decreases |t| - i, 0
  {
    var ch := t[i];
    if esc {
      ScanResult(t, start, i + 1, stack, true, false, decode);
    } else if ch == '\\' {
      ScanResult(t, start, i + 1, stack, true, true, decode);
    } else if ch == '"' {
      ScanResult(t, start, i + 1, stack, false, esc, decode);
    } else {
      ScanResult(t, start, i + 1, stack, true, esc, decode);
    }
  }

  /** The scan outside string literals: brackets push and pop, a quote opens a string. */
  lemma {:induction false} ScanResultOutside(t: string, start: nat, i: nat, stack: seq<char>, esc: bool, decode: Decoder)
    requires start <= i <= |t| && start < |t| && IsOpener(t[start])
    requires stack == [] ==> i == start
    requires stack != [] ==> stack[0] == t[start]
    requires Scan(t, start, i, stack, false, esc, decode).Some?
    ensures var e := Scan(t, start, i, stack, false, esc, decode).value;
      i <= e < |t| && IsCloser(t[e]) && decode(t[start..e + 1]).Some? && Pairs(t[start], t[e])
    decreases |t| - i, 0
  {
    var ch := t[i];
    if ch == '"' {
      ScanResult(t, start, i + 1, stack, true, esc, decode);
    } else if IsOpener(ch) {
      ScanResult(t, start, i + 1, stack + [ch], false, esc, decode);
    } else if IsCloser(ch) {
      if |stack| > 1 {
        ScanResult(t, start, i + 1, stack[..|stack| - 1], false, esc, decode);
      }
    } else {
      ScanResult(t, start, i + 1, stack, false, esc, decode);
    }
  }

  /** An accepted start yields a candidate that opens and closes with a matching pair. */
  lemma ScanFromResult(t: string, start: nat, decode: Decoder)
    requires Works(t, start, decode)
    ensures var e := ScanFrom(t, start, decode).value;
      start < e < |t| && Pairs(t[start], t[e]) && decode(t[start..e + 1]).Some?
  {
    ScanResult(t, start, start, [], false, false, decode);
  }

  // ---------------------------------------------------------------------------
  // Balance of a candidate, independently of the scanner
  // ---------------------------------------------------------------------------

  /**
   * The state after reading some text from its start: the open brackets
   * (innermost last), whether a string literal is open, whether the last
   * character was a backslash inside it, and whether a closer has failed
   * to match.
   */
  datatype Lexed = Lexed(open: seq<char>, inString: bool, escaped: bool, broken: bool)

  /** Reading one more character. */
  function LexStep(s: Lexed, ch: char): Lexed {
    if s.broken then s
    else if s.inString then
      if s.escaped then s.(escaped := false)
      else if ch == '\\' then s.(escaped := true)
      else if ch == '"' then s.(inString := false)
      else s
    else if ch == '"' then s.(inString := true)
    else if IsOpener(ch) then s.(open := s.open + [ch])
    else if IsCloser(ch) then
      if s.open == [] || !Pairs(s.open[|s.open| - 1], ch) then s.(broken := true)
      else s.(open := s.open[..|s.open| - 1])
    else s
  }

  /** The state after reading all of c. */
  function Lex(c: string): Lexed {
    if c == [] then Lexed([], false, false, false)
    else LexStep(Lex(c[..|c| - 1]), c[|c| - 1])
  }

  /** Some bracket is open and every closer so far matched. */
  predicate Unclosed(s: Lexed) {
    !s.broken && s.open != []
  }

  /**
   * c is one bracketed value: it opens with '{' or '[', every closer
   * outside string literals matches the innermost open bracket, and the
   * brackets first all close at its last character.
   */
  predicate Balanced(c: string) {
    && c != [] && IsOpener(c[0])
    && !Lex(c).broken && Lex(c).open == []
    && forall k :: 0 < k < |c| ==> Unclosed(Lex(c[..k]))
  }

  /** t[s..e + 1] is a balanced value that parses. */
  predicate JsonAt(t: string, s: nat, e: nat, decode: Decoder) {
    s <= e < |t| && Balanced(t[s..e + 1]) && decode(t[s..e + 1]).Some?
  }

  /**
   * Where the scan from an opener at `start` stands at i, having read
   * t[start..i] into its state, it returns e exactly when t[start..e + 1]
   * is balanced and parses.
   */
  lemma {:induction false} ScanMatchesLex(t: string, start: nat, i: nat, stack: seq<char>, inStr: bool, esc: bool,
                                          decode: Decoder, e: nat)
    requires start < i <= |t| && IsOpener(t[start])
    requires Lex(t[start..i]) == Lexed(stack, inStr, esc, false)
    requires forall k :: start < k <= i ==> Unclosed(Lex(t[start..k]))
    ensures Scan(t, start, i, stack, inStr, esc, decode) == Some(e) <==>
      i <= e < |t| && Balanced(t[start..e + 1]) && decode(t[start..e + 1]).Some?
    decreases |t| - i
  {
    if i < |t| {
      LexOneMore(t, start, i);
      var next := LexStep(Lexed(stack, inStr, esc, false), t[i]);
      assert Lex(t[start..i + 1]) == next;
      if Unclosed(next) {
        ScanOpenStep(t, start, i, stack, inStr, esc, decode);
        StillOpenNotBalanced(t, start, i, e);
        ScanMatchesLex(t, start, i + 1, next.open, next.inString, next.escaped, decode, e);
      } else if next.broken {
        ScanBrokenStep(t, start, i, stack, inStr, esc, decode);
        BrokenNotBalanced(t, start, i, e);
      } else {
        ScanClosedStep(t, start, i, stack, inStr, esc, decode);
        ClosedBalancedHere(t, start, i, e);
      }
    }
  }

  /** Reading t[i] after t[start..i]. */
  lemma LexOneMore(t: string, start: nat, i: nat)
    requires start <= i < |t|
    ensures Lex(t[start..i + 1]) == LexStep(Lex(t[start..i]), t[i])
  {
    var c := t[start..i + 1];
    assert c[..|c| - 1] == t[start..i] && c[|c| - 1] == t[i];
  }

  /** While a bracket is still open after t[i], no candidate ends at i. */
  lemma StillOpenNotBalanced(t: string, start: nat, i: nat, e: nat)
    requires start <= i < |t| && Unclosed(Lex(t[start..i + 1]))
    ensures (i <= e < |t| && Balanced(t[start..e + 1])) <==> (i + 1 <= e < |t| && Balanced(t[start..e + 1]))
  {
  }

  /** After a mismatch no candidate from start balances. */
  lemma BrokenNotBalanced(t: string, start: nat, i: nat, e: nat)
    requires start <= i < |t| && Lex(t[start..i + 1]).broken
    ensures !(i <= e < |t| && Balanced(t[start..e + 1]))
  {
    if i < e < |t| {
      PrefixOfCandidate(t, start, i + 1, e);
    }
  }

  /** When the brackets first close at i, the only balanced candidate ends at i. */
  lemma ClosedBalancedHere(t: string, start: nat, i: nat, e: nat)
    requires start <= i < |t| && IsOpener(t[start])
    requires !Lex(t[start..i + 1]).broken && Lex(t[start..i + 1]).open == []
    requires forall k :: start < k <= i ==> Unclosed(Lex(t[start..k]))
    ensures (i <= e < |t| && Balanced(t[start..e + 1])) <==> e == i
  {
    var c := t[start..i + 1];
    if i < e < |t| {
      PrefixOfCandidate(t, start, i + 1, e);
    }
    forall k | 0 < k < |c|
      ensures Unclosed(Lex(c[..k]))
    {
      assert c[..k] == t[start..start + k];
    }
  }

  /** A proper prefix of a candidate is the text read so far. */
  lemma PrefixOfCandidate(t: string, start: nat, j: nat, e: nat)
    requires start < j <= e < |t|
    ensures t[start..e + 1][..j - start] == t[start..j]
  {
  }

  /** While a bracket stays open, the scanner moves on in the state the lexer reaches. */
  lemma ScanOpenStep(t: string, start: nat, i: nat, stack: seq<char>, inStr: bool, esc: bool, decode: Decoder)
    requires start <= i < |t|
    requires Unclosed(LexStep(Lexed(stack, inStr, esc, false), t[i]))
    ensures var next := LexStep(Lexed(stack, inStr, esc, false), t[i]);
      Scan(t, start, i, stack, inStr, esc, decode) == Scan(t, start, i + 1, next.open, next.inString, next.escaped, decode)
  {
  }

  /** A closer that does not match ends the scan with nothing. */
  lemma ScanBrokenStep(t: string, start: nat, i: nat, stack: seq<char>, inStr: bool, esc: bool, decode: Decoder)
    requires start <= i < |t|
    requires LexStep(Lexed(stack, inStr, esc, false), t[i]).broken
    ensures Scan(t, start, i, stack, inStr, esc, decode) == None
  {
  }

  /** The closer of the last open bracket ends the scan, with a result exactly when the candidate parses. */
  lemma ScanClosedStep(t: string, start: nat, i: nat, stack: seq<char>, inStr: bool, esc: bool, decode: Decoder)
    requires start <= i < |t|
    requires var next := LexStep(Lexed(stack, inStr, esc, false), t[i]); !next.broken && next.open == []
    requires stack != []
    ensures Scan(t, start, i, stack, inStr, esc, decode) ==
      if decode(t[start..i + 1]).Some? then Some(i) else None
  {
  }

  /**
   * The scanner's verdict in terms of balance: from `s` it returns e
   * exactly when `s` holds an opener and t[s..e + 1] is balanced (its
   * brackets first close at e, with no mismatch before) and parses.
   */
  lemma ScanFromBalanced(t: string, s: nat, e: nat, decode: Decoder)
    ensures (Works(t, s, decode) && ScanFrom(t, s, decode) == Some(e)) <==> JsonAt(t, s, e, decode)
  {
    if s < |t| && IsOpener(t[s]) {
      var c := t[s..s + 1];
      assert c[..0] == [] && c[0] == t[s];
      assert Lex(c) == Lexed([t[s]], false, false, false);
      assert Scan(t, s, s, [], false, false, decode) == Scan(t, s, s + 1, [t[s]], false, false, decode);
      ScanMatchesLex(t, s, s + 1, [t[s]], false, false, decode, e);
    } else if s <= e < |t| {
      assert t[s..e + 1][0] == t[s];
    }
  }

  /**
   * Inside a string literal with no quote or backslash ahead, the scan only
   * advances: brackets there never touch the stack.
   */
  lemma {:induction false} ScanSkipsStringBody(t: string, start: nat, i: nat, j: nat, stack: seq<char>, decode: Decoder)
    requires start <= i <= j <= |t|
    requires forall k :: i <= k < j ==> t[k] != '"' && t[k] != '\\'
    ensures Scan(t, start, i, stack, true, false, decode) == Scan(t, start, j, stack, true, false, decode)
    decreases j - i
  {
    if i < j {
      ScanSkipsStringBody(t, start, i + 1, j, stack, decode);
    }
  }

  /**
   * The scan of a candidate does not depend on the text around it: a scan
   * that succeeds inside `c` succeeds at the same place inside `a + c + b`.
   */
  lemma {:induction false} ScanEmbedded(a: string, c: string, b: string, start: nat, i: nat,
                                        stack: seq<char>, inStr: bool, esc: bool, decode: Decoder)
    requires start <= i <= |c|
    requires Scan(c, start, i, stack, inStr, esc, decode).Some?
    ensures Scan(a + c + b, |a| + start, |a| + i, stack, inStr, esc, decode)
         == Some(|a| + Scan(c, start, i, stack, inStr, esc, decode).value)
    decreases |c| - i
  {
    var t := a + c + b;
    assert t[|a| + i] == c[i];
    var ch := c[i];
    if inStr {
      if esc {
        ScanEmbedded(a, c, b, start, i + 1, stack, inStr, false, decode);
      } else if ch == '\\' {
        ScanEmbedded(a, c, b, start, i + 1, stack, inStr, true, decode);
      } else if ch == '"' {
        ScanEmbedded(a, c, b, start, i + 1, stack, false, esc, decode);
      } else {
        ScanEmbedded(a, c, b, start, i + 1, stack, inStr, esc, decode);
      }
    } else if ch == '"' {
      ScanEmbedded(a, c, b, start, i + 1, stack, true, esc, decode);
    } else if IsOpener(ch) {
      ScanEmbedded(a, c, b, start, i + 1, stack + [ch], inStr, esc, decode);
    } else if IsCloser(ch) {
      if |stack| == 1 {
        assert t[|a| + start..|a| + i + 1] == c[start..i + 1];
      } else {
        ScanEmbedded(a, c, b, start, i + 1, stack[..|stack| - 1], inStr, esc, decode);
      }
    } else {
      ScanEmbedded(a, c, b, start, i + 1, stack, inStr, esc, decode);
    }
  }

  /** The leftmost accepted start at or after k, with the end of its candidate. */
  function FirstJsonFrom(t: string, k: nat, decode: Decoder): (r: Option<(nat, nat)>)
    requires k <= |t|
    ensures r.Some? ==> k <= r.value.0 < r.value.1 < |t| && Works(t, r.value.0, decode)
                        && r.value.1 == ScanFrom(t, r.value.0, decode).value
    ensures r.Some? ==> forall s :: k <= s < r.value.0 ==> !Works(t, s, decode)
    ensures r.None? ==> forall s :: k <= s < |t| ==> !Works(t, s, decode)
    decreases |t| - k
  {
    if k == |t| then None
    else if IsOpener(t[k]) && ScanFrom(t, k, decode).Some? then
      ScanFromResult(t, k, decode);
      Some((k, ScanFrom(t, k, decode).value))
    else FirstJsonFrom(t, k + 1, decode)
  }

  const NoJsonFound := "No valid JSON found"

  /** `SonnetClient._extract_first_json`; Err stands for the ValueError. */
  function ExtractFirstJson(text: string, decode: Decoder): Result<string> {
    var t := Strip(text);
    if decode(t).Some? then Ok(t)
    else
      match FirstJsonFrom(t, 0, decode)
      case Some((s, e)) => Ok(t[s..e + 1])
      case None => Err(NoJsonFound)
  }

  /**
   * What the extraction promises: the stripped text when it parses; otherwise
   * the candidate of the leftmost accepted start, which opens with '{' or '['
   * and closes with the partner bracket; an error exactly when no start works.
   */
  lemma ExtractFirstJsonSpec(text: string, decode: Decoder)
    ensures var t := Strip(text);
      var r := ExtractFirstJson(text, decode);
      && (decode(t).Some? ==> r == Ok(t))
      && (r.Ok? ==> decode(r.value).Some?)
      && (r.Err? <==> decode(t).None? && forall s :: 0 <= s < |t| ==> !Works(t, s, decode))
      && (r.Ok? && decode(t).None? ==>
            exists s, e :: 0 <= s < e < |t| && r.value == t[s..e + 1] && Pairs(t[s], t[e])
                           && (forall s' :: 0 <= s' < s ==> !Works(t, s', decode))
                           && ScanFrom(t, s, decode) == Some(e))
  {
    var t := Strip(text);
    if decode(t).None? {
      var f := FirstJsonFrom(t, 0, decode);
      if f.Some? {
        var (s, e) := f.value;
        ScanFromResult(t, s, decode);
        assert ExtractFirstJson(text, decode).value == t[s..e + 1];
      } else {
        assert ExtractFirstJson(text, decode).Err?;
      }
    }
  }

  /**
   * The extraction in terms of balance alone: the stripped text when it
   * parses; otherwise the balanced value that parses and starts leftmost;
   * an error exactly when the text holds no such value.
   */
  lemma ExtractFirstJsonBalanced(text: string, decode: Decoder)
    ensures var t := Strip(text);
      var r := ExtractFirstJson(text, decode);
      && (decode(t).Some? ==> r == Ok(t))
      && (r.Err? <==> decode(t).None? && forall s: nat, e: nat :: !JsonAt(t, s, e, decode))
      && (r.Ok? && decode(t).None? ==>
            exists s: nat, e: nat :: JsonAt(t, s, e, decode) && r.value == t[s..e + 1]
                           && forall s': nat, e': nat :: s' < s ==> !JsonAt(t, s', e', decode))
  {
    var t := Strip(text);
    if decode(t).None? {
      var f := FirstJsonFrom(t, 0, decode);
      if f.Some? {
        var (s, e) := f.value;
        assert ExtractFirstJson(text, decode) == Ok(t[s..e + 1]);
        ScanFromBalanced(t, s, e, decode);
        forall s': nat, e': nat | s' < s
          ensures !JsonAt(t, s', e', decode)
        {
          ScanFromBalanced(t, s', e', decode);
        }
      } else {
        assert ExtractFirstJson(text, decode).Err?;
        forall s: nat, e: nat
          ensures !JsonAt(t, s, e, decode)
        {
          ScanFromBalanced(t, s, e, decode);
        }
      }
    }
  }

  /**
   * Recovery from prose around a JSON value: with no bracket in the preamble,
   * a balanced candidate that parses is returned as it is, whatever follows it.
   */
  lemma ExtractAfterProse(prose: string, candidate: string, trailer: string, decode: Decoder)
    requires forall i :: 0 <= i < |prose| ==> !IsOpener(prose[i])
    requires candidate != [] && IsOpener(candidate[0])
    requires ScanFrom(candidate, 0, decode) == Some(|candidate| - 1)
    requires Strip(prose + candidate + trailer) == prose + candidate + trailer
    requires decode(prose + candidate + trailer).None?
    ensures ExtractFirstJson(prose + candidate + trailer, decode) == Ok(candidate)
  {
    var t := prose + candidate + trailer;
    ScanEmbedded(prose, candidate, trailer, 0, 0, [], false, false, decode);
    ScanFromResult(candidate, 0, decode);
    assert t[|prose|] == candidate[0];
    assert Works(t, |prose|, decode);
    assert forall s :: 0 <= s < |prose| ==> !Works(t, s, decode) by {
      forall s | 0 <= s < |prose| ensures !Works(t, s, decode) {
        assert t[s] == prose[s];
      }
    }
    var f := FirstJsonFrom(t, 0, decode);
    assert f == Some((|prose|, |prose| + |candidate| - 1));
    assert t[|prose|..|prose| + |candidate|] == candidate;
  }

  // ---------------------------------------------------------------------------
  // _extract_first_json: the loops of the source
  // ---------------------------------------------------------------------------

  /**
   * The inner loop of the source for one start position: an explicit stack
   * and string/escape flags. None stands for a `break`.
   */
  method ScanCandidate(t: string, start: nat, decode: Decoder) returns (end: Option<nat>)
    requires start < |t|
    ensures end == ScanFrom(t, start, decode)
  {
    var stack: seq<char> := [];
    var inStr := false;
    var esc := false;
    var i := start;
    while i < |t|
      invariant start <= i <= |t|
      invariant ScanFrom(t, start, decode) == Scan(t, start, i, stack, inStr, esc, decode)
      decreases |t| - i
    {
      var ch := t[i];
      if inStr {
        if esc {
          esc := false;
        } else if ch == '\\' {
          esc := true;
        } else if ch == '"' {
          inStr := false;
        }
      } else {
        if ch == '"' {
          inStr := true;
        } else if IsOpener(ch) {
          stack := stack + [ch];
        } else if IsCloser(ch) {
          if stack == [] {
            return None;
          }
          var opener := stack[|stack| - 1];
          stack := stack[..|stack| - 1];
          if !Pairs(opener, ch) {
            return None;
          }
          if stack == [] {
            if decode(t[start..i + 1]).Some? {
              return Some(i);
            }
            return None;
          }
        }
      }
      i := i + 1;
    }
    return None;
  }

  /**
   * The scanner as the source writes it: the quick parse of the stripped
   * text, then a loop over the positions of '{' and '[' in increasing order.
   */
  method ExtractFirstJsonScan(text: string, decode: Decoder) returns (r: Result<string>)
    ensures r == ExtractFirstJson(text, decode)
  {
    var t := Strip(text);
    if decode(t).Some? {
      return Ok(t);
    }
    var start := 0;
    while start < |t|
      invariant 0 <= start <= |t|
      invariant FirstJsonFrom(t, 0, decode) == FirstJsonFrom(t, start, decode)
    {
      if IsOpener(t[start]) {
        var end := ScanCandidate(t, start, decode);
        if end.Some? {
          return Ok(t[start..end.value + 1]);
        }
      }
      start := start + 1;
    }
    return Err(NoJsonFound);
  }

  // ---------------------------------------------------------------------------
  // SonnetClient.generate_json
  // ---------------------------------------------------------------------------

  /** A content block of a Messages API reply: `type` and `text` may be missing. */
  datatype Block = Block(kind: Option<string>, text: Option<string>)

  /**
   * What the HTTP call did. `RequestFailed` is any RequestException, which
   * includes the JSONDecodeError of a 200 body that does not parse;
   * `Unexpected` is any other exception, with its text.
   */
  datatype SonnetOutcome =
    | SonnetTimeout
    | SonnetRequestFailed(detail: string)
    | SonnetUnexpected(detail: string)
    | SonnetReply(status: int, body: string, blocks: seq<Block>)

  /** The request the client sends; the schema arrives already serialised. */
  datatype SonnetRequest = SonnetRequest(
    url: string, apiKey: string, model: string, maxTokens: int, system: string, userPrompt: string)

  const SonnetSystemPrompt :=
    "Eres un oficial financiero de donantes. Devuelve SOLO JSON v\U{E1}lido que cumpla el esquema. "
    + "No incluyas bloques de c\U{F3}digo ni texto adicional. Si no est\U{E1}s seguro, devuelve un JSON "
    + "v\U{E1}lido con estructuras vac\U{ED}as."

  /** The budget dict every failure branch starts from. */
  function EmptyBudget(): map<string, Value> {
    map[
      "currency" := Str("USD"),
      "items" := Arr([]),
      "summary_by_category" := Obj(map[]),
      "total" := Real(0.0),
      "assumptions" := Arr([]),
      "compliance_notes" := Arr([])]
  }

  /** `{**empty, "error": message}`. */
  function BudgetError(message: string): Value {
    Obj(EmptyBudget()["error" := Str(message)])
  }

  /** The failure shape: the six empty-budget entries unchanged, plus the message. */
  lemma BudgetErrorShape(message: string)
    ensures var v := BudgetError(message);
      && v.Obj? && v.fields.Keys == EmptyBudget().Keys + {"error"}
      && v.fields["error"] == Str(message)
      && v.fields["currency"] == Str("USD") && v.fields["items"] == Arr([])
      && v.fields["summary_by_category"] == Obj(map[]) && v.fields["total"] == Real(0.0)
      && v.fields["assumptions"] == Arr([]) && v.fields["compliance_notes"] == Arr([])
  {
  }

  /** The concatenated text of the blocks whose type is "text". */
  function ReplyText(blocks: seq<Block>): string {
    if blocks == [] then []
    else
      var b := blocks[|blocks| - 1];
      ReplyText(blocks[..|blocks| - 1]) + (if b.kind == Some("text") then b.text.GetOr([]) else [])
  }

  const MissingSonnetKey := "Sonnet API key no configurada. Define SONNET_API_KEY o ANTHROPIC_API_KEY en .env."

  function SonnetStatusMessage(status: int, body: string, model: string): string {
    var msg := if status == 404 then
        body + "\n\nModelo utilizado: " + model + "\nSugeridos: claude-3-5-sonnet-20241022, claude-3-5-sonnet-20240620"
      else body;
    "Error API Sonnet: " + IntToString(status) + " - " + msg
  }

  /** The request `generate_json` sends. */
  function SonnetRequestFor(baseUrl: string, apiKey: string, model: string, maxTokens: int,
                            schemaJson: string, prompt: string): SonnetRequest {
    SonnetRequest(RStripSlash(baseUrl) + "/messages", apiKey, model, maxTokens, SonnetSystemPrompt,
      "ESQUEMA_JSON:\n" + schemaJson + "\n\nTAREA:\n" + prompt + "\n\nDEVUELVE SOLO JSON. SIN ```.")
  }

  /** `base_url.rstrip("/")`. */
  function RStripSlash(s: string): (r: string)
    ensures |r| <= |s| && r == s[..|r|] && (r == [] || r[|r| - 1] != '/')
  {
    if s != [] && s[|s| - 1] == '/' then RStripSlash(s[..|s| - 1]) else s
  }

  /** The reply after a 200 status: the parsed budget, or the parse-failure error. */
  function SonnetParse(blocks: seq<Block>, decode: Decoder): Value {
    var text := Strip(ReplyText(blocks));
    match ExtractFirstJson(StripCodeFences(text), decode)
    case Ok(js) => (match decode(js) case Some(v) => v case None => BudgetError("No se pudo parsear JSON de la respuesta: " + text))
    case Err(_) => BudgetError("No se pudo parsear JSON de la respuesta: " + text)
  }

  /** `SonnetClient.generate_json`. */
  function GenerateJson(apiKey: string, baseUrl: string, model: string, maxTokens: int,
                        schemaJson: string, prompt: string,
                        send: SonnetRequest -> SonnetOutcome, decode: Decoder): Value {
    if apiKey == [] then BudgetError(MissingSonnetKey)
    else
      var o := send(SonnetRequestFor(baseUrl, apiKey, model, maxTokens, schemaJson, prompt));
      if o.SonnetReply? && o.status == 200 then SonnetParse(o.blocks, decode)
      else BudgetError(SonnetFailureMessage(o, model))
  }

  /** The message of each way a request can fail: a timeout, a lost connection, anything else, a non-200 status. */
  function SonnetFailureMessage(o: SonnetOutcome, model: string): string
    requires !(o.SonnetReply? && o.status == 200)
  {
    match o
    case SonnetTimeout => "Sonnet API timeout. La generaci\U{F3}n del presupuesto tard\U{F3} demasiado."
    case SonnetRequestFailed(d) => "Error de conexi\U{F3}n con Sonnet: " + d
    case SonnetUnexpected(d) => "Error inesperado: " + d
    case SonnetReply(status, body, _) => SonnetStatusMessage(status, body, model)
  }

  /** The empty budget with an error message added. */
  predicate IsBudgetError(v: Value) {
    v.Obj? && "error" in v.fields && v.fields["error"].Str? && v == BudgetError(v.fields["error"].s)
  }

  lemma BudgetErrorRecovers(message: string)
    ensures IsBudgetError(BudgetError(message))
  {
    BudgetErrorShape(message);
  }

  /** After a 200 reply the result is what the extracted JSON parses to, or a budget error. */
  lemma SonnetParseShape(blocks: seq<Block>, decode: Decoder)
    ensures IsBudgetError(SonnetParse(blocks, decode)) || exists js :: decode(js) == Some(SonnetParse(blocks, decode))
  {
    var text := Strip(ReplyText(blocks));
    var r := ExtractFirstJson(StripCodeFences(text), decode);
    if r.Ok? && decode(r.value).Some? {
      assert decode(r.value) == Some(SonnetParse(blocks, decode));
    }
  }

  /**
   * Every result of `generate_json` is either a value the reply parsed to or
   * the empty budget plus an error message.
   */
  lemma GenerateJsonShape(apiKey: string, baseUrl: string, model: string, maxTokens: int,
                          schemaJson: string, prompt: string,
                          send: SonnetRequest -> SonnetOutcome, decode: Decoder)
    ensures var v := GenerateJson(apiKey, baseUrl, model, maxTokens, schemaJson, prompt, send, decode);
      IsBudgetError(v) || exists js :: decode(js) == Some(v)
  {
    var v := GenerateJson(apiKey, baseUrl, model, maxTokens, schemaJson, prompt, send, decode);
    if apiKey != [] {
      var o := send(SonnetRequestFor(baseUrl, apiKey, model, maxTokens, schemaJson, prompt));
      if o.SonnetReply? && o.status == 200 {
        assert v == SonnetParse(o.blocks, decode);
        SonnetParseShape(o.blocks, decode);
      } else {
        BudgetErrorRecovers(SonnetFailureMessage(o, model));
      }
    } else {
      BudgetErrorRecovers(MissingSonnetKey);
    }
  }

  /** Without an API key no request is sent: the result does not depend on `send`. */
  lemma GenerateJsonNoKey(baseUrl: string, model: string, maxTokens: int, schemaJson: string, prompt: string,
                          send: SonnetRequest -> SonnetOutcome, send': SonnetRequest -> SonnetOutcome, decode: Decoder)
    ensures GenerateJson([], baseUrl, model, maxTokens, schemaJson, prompt, send, decode)
         == GenerateJson([], baseUrl, model, maxTokens, schemaJson, prompt, send', decode)
    ensures IsBudgetError(GenerateJson([], baseUrl, model, maxTokens, schemaJson, prompt, send, decode))
  {
  }

  /** The text of a reply made of one text block is that block's text. */
  lemma ReplyTextOne(raw: string)
    ensures ReplyText([Block(Some("text"), Some(raw))]) == raw
  {
    var blocks := [Block(Some("text"), Some(raw))];
    assert blocks[..0] == [];
    assert ReplyText([]) + raw == raw;
  }

  /** The cleaned text of a reply made of one fenced JSON block is the stripped body. */
  lemma FencedReplyText(body: string)
    requires !IsBlank(body)
    ensures StripCodeFences(Strip(ReplyText([Block(Some("text"), Some("```json\n" + body + "\n```"))]))) == Strip(body)
  {
    var raw := "```json\n" + body + "\n```";
    ReplyTextOne(raw);
    assert raw[0] == '`' && raw[|raw| - 1] == '`';
    StripOfStripped(raw);
    StripCodeFencesFenced(body);
  }

  /** A 200 reply whose one text block is a fenced JSON body parses to that body. */
  lemma SonnetParseFenced(decode: Decoder, body: string)
    requires !IsBlank(body) && decode(Strip(body)).Some?
    ensures SonnetParse([Block(Some("text"), Some("```json\n" + body + "\n```"))], decode) == decode(Strip(body)).value
  {
    FencedReplyText(body);
    StripIdempotent(body);
    ExtractFirstJsonSpec(Strip(body), decode);
  }

  /** A reply holding a fenced JSON block whose body parses is returned parsed. */
  lemma GenerateJsonFencedReply(apiKey: string, baseUrl: string, model: string, maxTokens: int,
                                schemaJson: string, prompt: string,
                                send: SonnetRequest -> SonnetOutcome, decode: Decoder, body: string)
    requires apiKey != [] && !IsBlank(body)
    requires send(SonnetRequestFor(baseUrl, apiKey, model, maxTokens, schemaJson, prompt))
             == SonnetReply(200, "", [Block(Some("text"), Some("```json\n" + body + "\n```"))])
    requires decode(Strip(body)).Some?
    ensures GenerateJson(apiKey, baseUrl, model, maxTokens, schemaJson, prompt, send, decode)
            == decode(Strip(body)).value
  {
    SonnetParseFenced(decode, body);
  }

  // ---------------------------------------------------------------------------
  // DeepSeekClient.generate
  // ---------------------------------------------------------------------------

  /** `LLMResult`. */
  datatype LlmResult = LlmResult(content: Value, raw: Value)

  /**
   * What the HTTP call did. A 200 reply carries the parsed body when it
   * parsed and the text of the exception raised while reading it otherwise.
   */
  datatype DeepSeekOutcome =
    | DeepSeekTimeout
    | DeepSeekRequestFailed(detail: string)
    | DeepSeekUnexpected(detail: string)
    | DeepSeekReply(status: int, body: string, json: Option<Value>, readError: string)

  datatype DeepSeekRequest = DeepSeekRequest(url: string, apiKey: string, model: string, prompt: string, maxTokens: int)

  /** `result["choices"][0]["message"]["content"]`, None when a step fails. */
  function ChoiceContent(v: Value): Option<Value> {
    var choices := Field(v, "choices");
    if choices.Arr? && |choices.items| > 0 then
      var message := Field(choices.items[0], "message");
      if message.Obj? && "content" in message.fields then Some(message.fields["content"]) else None
    else None
  }

  const MissingDeepSeekKey := "Error: " + "DeepSeek API key no configurada. Por favor verifica tu archivo .env"
  const DeepSeekTimeoutMessage :=
    "Error: " + "DeepSeek API timeout. El documento es muy grande o la respuesta "
    + "est\U{E1} tardando demasiado. Intenta con un documento m\U{E1}s peque\U{F1}o."

  function DeepSeekRequestFor(baseUrl: string, apiKey: string, model: string, prompt: string, maxTokens: int): DeepSeekRequest {
    DeepSeekRequest(RStripSlash(baseUrl) + "/chat/completions", apiKey, model, prompt, maxTokens)
  }

  /** `DeepSeekClient.generate`. */
  function DeepSeekGenerate(apiKey: string, baseUrl: string, model: string, prompt: string, maxTokens: int,
                            send: DeepSeekRequest -> DeepSeekOutcome): LlmResult {
    if apiKey == [] then LlmResult(Str(MissingDeepSeekKey), Obj(map["error" := Str("missing_api_key")]))
    else DeepSeekOutcomeResult(send(DeepSeekRequestFor(baseUrl, apiKey, model, prompt, maxTokens)))
  }

  /** What `generate` makes of the outcome of its request. */
  function DeepSeekOutcomeResult(o: DeepSeekOutcome): LlmResult {
    match o
    case DeepSeekTimeout => LlmResult(Str(DeepSeekTimeoutMessage), Obj(map["error" := Str("timeout")]))
    case DeepSeekRequestFailed(d) =>
      LlmResult(Str("Error de conexi\U{F3}n con DeepSeek: " + d), Obj(map["error" := Str(d)]))
    case DeepSeekUnexpected(d) => LlmResult(Str("Error inesperado: " + d), Obj(map["error" := Str(d)]))
    case DeepSeekReply(status, body, json, readError) =>
      if status == 200 then
        if json.None? then
          // `resp.json()` raises a JSONDecodeError, which is a RequestException
          LlmResult(Str("Error de conexi\U{F3}n con DeepSeek: " + readError), Obj(map["error" := Str(readError)]))
        else if ChoiceContent(json.value).Some? then LlmResult(ChoiceContent(json.value).value, json.value)
        else LlmResult(Str("Error inesperado: " + readError), Obj(map["error" := Str(readError)]))
      else
        LlmResult(Str("Error API DeepSeek: " + IntToString(status) + " - " + body),
                  Obj(map["error" := Str(body), "status_code" := Int(status)]))
  }

  /** Success is a 200 reply whose body has a message content. */
  predicate DeepSeekSucceeded(o: DeepSeekOutcome) {
    o.DeepSeekReply? && o.status == 200 && o.json.Some? && ChoiceContent(o.json.value).Some?
  }

  /**
   * Every failure branch returns text beginning with "Error" and a raw dict
   * with an "error" entry.
   */
  lemma DeepSeekFailuresStartWithError(apiKey: string, baseUrl: string, model: string, prompt: string, maxTokens: int,
                                       send: DeepSeekRequest -> DeepSeekOutcome)
    requires apiKey == [] || !DeepSeekSucceeded(send(DeepSeekRequestFor(baseUrl, apiKey, model, prompt, maxTokens)))
    ensures var r := DeepSeekGenerate(apiKey, baseUrl, model, prompt, maxTokens, send);
      r.content.Str? && StartsWith(r.content.s, "Error") && r.raw.Obj? && "error" in r.raw.fields
  {
    if apiKey == [] {
      StartsWithChars(MissingDeepSeekKey, "Error");
    } else {
      DeepSeekFailureResult(send(DeepSeekRequestFor(baseUrl, apiKey, model, prompt, maxTokens)));
    }
  }

  /** Each failed outcome becomes an "Error..." text with an "error" entry. */
  lemma DeepSeekFailureResult(o: DeepSeekOutcome)
    requires !DeepSeekSucceeded(o)
    ensures var r := DeepSeekOutcomeResult(o);
      r.content.Str? && StartsWith(r.content.s, "Error") && r.raw.Obj? && "error" in r.raw.fields
  {
    match o
    case DeepSeekTimeout => StartsWithChars(DeepSeekTimeoutMessage, "Error");
    case DeepSeekRequestFailed(d) =>
      StartsWithChars("Error de conexi\U{F3}n con DeepSeek: ", "Error");
      StartsWithAppend("Error de conexi\U{F3}n con DeepSeek: ", d, "Error");
    case DeepSeekUnexpected(d) =>
      StartsWithChars("Error inesperado: ", "Error");
      StartsWithAppend("Error inesperado: ", d, "Error");
    case DeepSeekReply(status, body, json, readError) =>
      if status == 200 {
        DeepSeekUnreadable(body, json, readError);
      } else {
        DeepSeekApiError(status, body, json, readError);
      }
  }

  /** A reply other than 200 reports its status and body. */
  lemma DeepSeekApiError(status: int, body: string, json: Option<Value>, readError: string)
    requires status != 200
    ensures var r := DeepSeekOutcomeResult(DeepSeekReply(status, body, json, readError));
      && r.content.Str? && StartsWith(r.content.s, "Error API DeepSeek: " + IntToString(status))
      && StartsWith(r.content.s, "Error") && r.raw == Obj(map["error" := Str(body), "status_code" := Int(status)])
  {
    var head := "Error API DeepSeek: " + IntToString(status);
    StartsWithChars(head, head);
    StartsWithAppend(head, " - ", head);
    StartsWithAppend(head + " - ", body, head);
    StartsWithChars("Error API DeepSeek: ", "Error");
    StartsWithAppend("Error API DeepSeek: ", IntToString(status), "Error");
    StartsWithAppend(head, " - " + body, "Error");
    assert head + " - " + body == head + (" - " + body);
  }

  /**
   * A 200 reply without a message content: a body that does not parse is a
   * connection error, a parsed body without the content an unexpected one.
   */
  lemma DeepSeekUnreadable(body: string, json: Option<Value>, readError: string)
    requires json.None? || ChoiceContent(json.value).None?
    ensures var r := DeepSeekOutcomeResult(DeepSeekReply(200, body, json, readError));
      && r.content.Str? && StartsWith(r.content.s, "Error") && r.raw == Obj(map["error" := Str(readError)])
      && (json.None? <==> StartsWith(r.content.s, "Error de conexi\U{F3}n"))
  {
    var conn := "Error de conexi\U{F3}n con DeepSeek: ";
    var other := "Error inesperado: ";
    StartsWithChars(conn, "Error");
    StartsWithAppend(conn, readError, "Error");
    StartsWithChars(conn, "Error de conexi\U{F3}n");
    StartsWithAppend(conn, readError, "Error de conexi\U{F3}n");
    StartsWithChars(other, "Error");
    StartsWithAppend(other, readError, "Error");
    if json.Some? {
      assert (other + readError)[6] == 'i';
    }
  }

  lemma DeepSeekNoKey(baseUrl: string, model: string, prompt: string, maxTokens: int,
                      send: DeepSeekRequest -> DeepSeekOutcome, send': DeepSeekRequest -> DeepSeekOutcome)
    ensures DeepSeekGenerate([], baseUrl, model, prompt, maxTokens, send)
         == DeepSeekGenerate([], baseUrl, model, prompt, maxTokens, send')
    ensures DeepSeekGenerate([], baseUrl, model, prompt, maxTokens, send).raw == Obj(map["error" := Str("missing_api_key")])
  {
  }
}
