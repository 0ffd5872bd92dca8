/**
 * The text utilities of services/document_processor.py: document chunking,
 * extracted-content validation and cleaning, the narrative section splitter,
 * language detection, syllable counting, the dependency report and the
 * template-context flattening.
 */
module DocumentProcessor {
  import opened Wrappers
  import opened PyStr
  import opened JsonValue

  // ---------------------------------------------------------------------------
  // chunk_document (the definition at line 163, which shadows the one at 80)
  // ---------------------------------------------------------------------------

  /** The pieces concatenated without separator. */
  function Concat(parts: seq<string>): string {
    if parts == [] then [] else parts[0] + Concat(parts[1..])
  }

  /** `[p.strip() for p in parts if p.strip()]`. */
  function KeepStripped(parts: seq<string>): (r: seq<string>)
    ensures |r| <= |parts|
    ensures forall i :: 0 <= i < |r| ==> r[i] != []
  {
    if parts == [] then []
    else
      var s := Strip(parts[0]);
      (if s == [] then [] else [s]) + KeepStripped(parts[1..])
  }

  /** Every kept piece is already stripped. */
  lemma {:induction false} KeepStrippedAreStripped(parts: seq<string>)
    ensures forall i :: 0 <= i < |KeepStripped(parts)| ==> Strip(KeepStripped(parts)[i]) == KeepStripped(parts)[i]
  {
    if parts != [] {
      KeepStrippedAreStripped(parts[1..]);
      StripIdempotent(parts[0]);
    }
  }

  /** Keeping the stripped non-blank pieces loses no visible character. */
  lemma {:induction false} KeepStrippedNonSpace(parts: seq<string>)
    ensures NonSpace(Concat(KeepStripped(parts))) == NonSpace(Concat(parts))
  {
    if parts != [] {
      var s := Strip(parts[0]);
      var rest := KeepStripped(parts[1..]);
      KeepStrippedNonSpace(parts[1..]);
      StripKeepsNonSpace(parts[0]);
      NonSpaceAppend(parts[0], Concat(parts[1..]));
      if s == [] {
        assert KeepStripped(parts) == rest;
      } else {
        assert KeepStripped(parts) == [s] + rest;
        assert Concat([s] + rest) == s + Concat(rest) by { assert ([s] + rest)[1..] == rest; }
        NonSpaceAppend(s, Concat(rest));
      }
    }
  }

  /** Joining with a whitespace separator adds no visible character. */
  lemma {:induction false} JoinNonSpace(parts: seq<string>, sep: string)
    requires AllSpace(sep)
    ensures NonSpace(Join(parts, sep)) == NonSpace(Concat(parts))
  {
    NonSpaceOfSpace(sep);
    if |parts| == 1 {
      assert parts[1..] == [];
      assert Concat(parts) == parts[0] + [] == parts[0];
    } else if |parts| > 1 {
      JoinNonSpace(parts[1..], sep);
      NonSpaceAppend(parts[0] + sep, Join(parts[1..], sep));
      NonSpaceAppend(parts[0], sep);
      NonSpaceAppend(parts[0], Concat(parts[1..]));
    }
  }

  /** The pieces `split(sep)` and the stripping keep hold every visible character of the text. */
  lemma SplitKeepNonSpace(content: string, sep: string)
    requires |sep| > 0 && AllSpace(sep)
    ensures NonSpace(Concat(KeepStripped(SplitOn(content, sep)))) == NonSpace(content)
  {
    JoinSplitOn(content, sep);
    JoinNonSpace(SplitOn(content, sep), sep);
    KeepStrippedNonSpace(SplitOn(content, sep));
  }

  /** The dict `chunk_document` returns; NoChunks is the two-key empty result. */
  datatype DocumentChunks =
    | NoChunks
    | Chunks(sections: seq<string>, paragraphs: seq<string>,
             totalLength: nat, sectionCount: nat, paragraphCount: nat)

  /** `DocumentProcessor.chunk_document`. */
  function ChunkDocument(content: string): (r: DocumentChunks)
    ensures r.NoChunks? <==> content == [] || StartsWith(content, "Error")
    ensures r.Chunks? ==>
      (r.totalLength == |content| && r.sectionCount == |r.sections| && r.paragraphCount == |r.paragraphs|)
  {
    if content == [] || StartsWith(content, "Error") then NoChunks
    else
      var sections := KeepStripped(SplitOn(content, "\n\n"));
      var paragraphs := KeepStripped(SplitOn(content, "\n"));
      Chunks(sections, paragraphs, |content|, |sections|, |paragraphs|)
  }

  /**
   * Sections and paragraphs are non-empty and stripped, and each list keeps
   * every visible character of the document, in order.
   */
  lemma ChunkDocumentSpec(content: string)
    requires ChunkDocument(content).Chunks?
    ensures var r := ChunkDocument(content);
      && (forall i :: 0 <= i < |r.sections| ==> r.sections[i] != [] && Strip(r.sections[i]) == r.sections[i])
      && (forall i :: 0 <= i < |r.paragraphs| ==> r.paragraphs[i] != [] && Strip(r.paragraphs[i]) == r.paragraphs[i])
      && NonSpace(Concat(r.sections)) == NonSpace(content)
      && NonSpace(Concat(r.paragraphs)) == NonSpace(content)
  {
    KeepStrippedAreStripped(SplitOn(content, "\n\n"));
    KeepStrippedAreStripped(SplitOn(content, "\n"));
    SplitKeepNonSpace(content, "\n\n");
    SplitKeepNonSpace(content, "\n");
  }

  // ---------------------------------------------------------------------------
  // _validate_extracted_content
  // ---------------------------------------------------------------------------

  /** Characters that are alphanumeric or whitespace. */
  function TextCharCount(s: string): (n: nat)
    ensures n <= |s|
  {
    if s == [] then 0
    else (if IsAlnum(s[0]) || IsSpace(s[0]) then 1 else 0) + TextCharCount(s[1..])
  }

  /**
   * `DocumentProcessor._validate_extracted_content`. The ratio test
   * `text_chars / total_chars < 0.3` is taken as the exact rational test.
   */
  function ValidateExtractedContent(content: string): bool {
    if content == [] || Strip(content) == [] then false
    else if |Strip(content)| < 50 then false
    else !(|content| > 0 && 10 * TextCharCount(content) < 3 * |content|)
  }

  /**
   * Content is accepted exactly when it is not blank, its stripped length is
   * at least 50, and at least 30% of its characters are text characters.
   */
  lemma ValidateExtractedContentSpec(content: string)
    ensures ValidateExtractedContent(content) <==>
      !IsBlank(content) && |Strip(content)| >= 50 && 10 * TextCharCount(content) >= 3 * |content|
  {
    StripEmptyIffBlank(content);
  }

  /** Only text characters counts all of them; text of length 50 or more then passes. */
  lemma {:induction false} PlainTextIsValid(content: string)
    requires forall i :: 0 <= i < |content| ==> IsAlnum(content[i]) || IsSpace(content[i])
    ensures TextCharCount(content) == |content|
    ensures |Strip(content)| >= 50 ==> ValidateExtractedContent(content)
  {
    if content != [] {
      PlainTextIsValid(content[1..]);
    }
    StripEmptyIffBlank(content);
  }

  // ---------------------------------------------------------------------------
  // _clean_extracted_text: the five substitutions and the final strip
  // ---------------------------------------------------------------------------

  /**
   * `re.sub(r'\n\s*\n\s*\n', '\n\n', t)` from position i. A match starts at a
   * newline whose whitespace run holds at least two more newlines, and the
   * greedy pattern runs to the last newline of that run.
   */
  function CollapseBlankLines(t: string, i: nat): string
    requires i <= |t|
    decreases |t| - i
  {
    if i == |t| then []
    else if t[i] == '\n' && ThreeNewlinesAt(t, i) then
      "\n\n" + CollapseBlankLines(t, BlankLinesEnd(t, i))
    else [t[i]] + CollapseBlankLines(t, i + 1)
  }

  /** The whitespace run from the newline at i holds two more newlines. */
  predicate ThreeNewlinesAt(t: string, i: nat)
    requires i < |t|
  {
    var w := SpaceRunEnd(t, i + 1);
    var n2 := FirstNewlineBetween(t, i + 1, w);
    n2 >= 0 && FirstNewlineBetween(t, n2 + 1, w) >= 0
  }

  /** One past the last newline of the whitespace run from i. */
  function BlankLinesEnd(t: string, i: nat): (e: nat)
    requires i < |t| && t[i] == '\n'
    ensures i < e <= |t| && SpacesBetween(t, i, e)
  {
    var w := SpaceRunEnd(t, i + 1);
    LastNewlineBetween(t, i, w) + 1
  }

  /** Only whitespace is rewritten. */
  lemma {:induction false} CollapseBlankLinesNonSpace(t: string, i: nat)
    requires i <= |t|
    ensures NonSpace(CollapseBlankLines(t, i)) == NonSpace(t[i..])
    decreases |t| - i
  {
    if i < |t| {
      if t[i] == '\n' && ThreeNewlinesAt(t, i) {
        var e := BlankLinesEnd(t, i);
        CollapseBlankLinesNonSpace(t, e);
        CollapsedRunNonSpace(t, i, e, CollapseBlankLines(t, e));
      } else {
        CollapseBlankLinesNonSpace(t, i + 1);
        KeptCharNonSpace(t, i, CollapseBlankLines(t, i + 1));
      }
    }
  }

  /** A whitespace run t[i..e] replaced by two newlines keeps the visible characters. */
  lemma CollapsedRunNonSpace(t: string, i: nat, e: nat, rest: string)
    requires i <= e <= |t| && SpacesBetween(t, i, e)
    requires NonSpace(rest) == NonSpace(t[e..])
    ensures NonSpace("\n\n" + rest) == NonSpace(t[i..])
  {
    NonSpaceAppend("\n\n", rest);
    NonSpaceOfSpace("\n\n");
    assert t[i..] == t[i..e] + t[e..];
    NonSpaceAppend(t[i..e], t[e..]);
    SpacesBetweenAllSpace(t, i, e);
    NonSpaceOfSpace(t[i..e]);
  }

  predicate IsBlankOrTab(c: char) { c == ' ' || c == '\t' }

  /** End of the run of spaces and tabs from i. */
  function BlankRunEnd(t: string, i: nat): (e: nat)
    requires i <= |t|
    ensures i <= e <= |t| && (e == |t| || !IsBlankOrTab(t[e]))
    ensures forall m :: i <= m < e ==> IsBlankOrTab(t[m])
    decreases |t| - i
  {
    if i == |t| || !IsBlankOrTab(t[i]) then i else BlankRunEnd(t, i + 1)
  }

  /** `re.sub(r'[ \t]+', ' ', t)` from position i. */
  function SquashBlanks(t: string, i: nat): string
    requires i <= |t|
    decreases |t| - i
  {
    if i == |t| then []
    else if IsBlankOrTab(t[i]) then " " + SquashBlanks(t, BlankRunEnd(t, i))
    else [t[i]] + SquashBlanks(t, i + 1)
  }

  /** No tab survives, and no two blanks are left side by side. */
  lemma {:induction false} SquashBlanksSpec(t: string, i: nat)
    requires i <= |t|
    ensures var r := SquashBlanks(t, i);
      && '\t' !in r
      && (forall k :: 0 <= k < |r| - 1 ==> !(r[k] == ' ' && r[k + 1] == ' '))
      && (r != [] && r[0] == ' ' ==> IsBlankOrTab(t[i]))
      && NonSpace(r) == NonSpace(t[i..])
    decreases |t| - i
  {
    if i < |t| {
      var r := SquashBlanks(t, i);
      assert t[i..] == [t[i]] + t[i + 1..];
      NonSpaceAppend([t[i]], t[i + 1..]);
      if IsBlankOrTab(t[i]) {
        var e := BlankRunEnd(t, i);
        var rest := SquashBlanks(t, e);
        SquashBlanksSpec(t, e);
        assert r == " " + rest;
        NonSpaceAppend(" ", rest);
        assert t[i + 1..] == t[i + 1..e] + t[e..];
        NonSpaceAppend(t[i + 1..e], t[e..]);
        assert SpacesBetween(t, i + 1, e);
        SpacesBetweenAllSpace(t, i + 1, e);
        NonSpaceOfSpace(t[i + 1..e]);
      } else {
        SquashBlanksSpec(t, i + 1);
        NonSpaceAppend([t[i]], SquashBlanks(t, i + 1));
      }
    }
  }

  /** `re.sub(r'\f', '\n', t)`. */
  function FormFeedToNewline(s: string): (r: string)
    ensures |r| == |s|
    ensures forall i :: 0 <= i < |s| ==> r[i] == (if s[i] == '\U{C}' then '\n' else s[i])
  {
    if s == [] then [] else [if s[0] == '\U{C}' then '\n' else s[0]] + FormFeedToNewline(s[1..])
  }

  lemma {:induction false} FormFeedToNewlineNonSpace(s: string)
    ensures NonSpace(FormFeedToNewline(s)) == NonSpace(s)
  {
    if s != [] {
      FormFeedToNewlineNonSpace(s[1..]);
      var c := if s[0] == '\U{C}' then '\n' else s[0];
      NonSpaceAppend([c], FormFeedToNewline(s[1..]));
      assert s == [s[0]] + s[1..];
      NonSpaceAppend([s[0]], s[1..]);
    }
  }

  /** The class `[\x00-\x08\x0b\x0c\x0e-\x1f\x7f-\xff]` of the artifact pass. */
  predicate IsArtifact(c: char) {
    || c <= '\U{8}' || c == '\U{B}' || c == '\U{C}'
    || ('\U{E}' <= c <= '\U{1F}') || ('\U{7F}' <= c <= '\U{FF}')
  }

  /** `re.sub(r'[\x00-\x08\x0b\x0c\x0e-\x1f\x7f-\xff]', '', t)`: the other characters, in order. */
  function DropArtifacts(s: string): (r: string)
    ensures |r| <= |s|
    ensures forall i :: 0 <= i < |r| ==> !IsArtifact(r[i])
    ensures forall c :: c in r ==> c in s
  {
    if s == [] then []
    else (if IsArtifact(s[0]) then [] else [s[0]]) + DropArtifacts(s[1..])
  }

  /** Deleting artifacts and dropping whitespace commute. */
  lemma {:induction false} DropArtifactsNonSpace(s: string)
    ensures NonSpace(DropArtifacts(s)) == DropArtifacts(NonSpace(s))
  {
    if s != [] {
      DropArtifactsNonSpace(s[1..]);
      var head := if IsArtifact(s[0]) then [] else [s[0]];
      NonSpaceAppend(head, DropArtifacts(s[1..]));
      DropArtifactsAppend(if IsSpace(s[0]) then [] else [s[0]], NonSpace(s[1..]));
    }
  }

  lemma {:induction false} DropArtifactsAppend(a: string, b: string)
    ensures DropArtifacts(a + b) == DropArtifacts(a) + DropArtifacts(b)
  {
    if a == [] {
      assert a + b == b;
    } else {
      assert (a + b)[1..] == a[1..] + b;
      DropArtifactsAppend(a[1..], b);
    }
  }

  predicate IsSentenceEnd(c: char) { c == '.' || c == '!' || c == '?' }

  /**
   * The punctuation at i, whitespace containing a newline, then an ASCII
   * capital: the pattern `([.!?])\s*\n\s*([A-Z])` matches at i.
   */
  predicate BrokenSentenceAt(t: string, i: nat)
    requires i < |t|
  {
    var w := SpaceRunEnd(t, i + 1);
    IsSentenceEnd(t[i]) && w < |t| && IsAsciiUpper(t[w]) && FirstNewlineBetween(t, i + 1, w) >= 0
  }

  /** `re.sub(r'([.!?])\s*\n\s*([A-Z])', r'\1 \2', t)` from position i. */
  function JoinBrokenSentences(t: string, i: nat): string
    requires i <= |t|
    decreases |t| - i
  {
    if i == |t| then []
    else if BrokenSentenceAt(t, i) then
      var w := SpaceRunEnd(t, i + 1);
      [t[i], ' ', t[w]] + JoinBrokenSentences(t, w + 1)
    else [t[i]] + JoinBrokenSentences(t, i + 1)
  }

  /** Only whitespace is rewritten. */
  lemma {:induction false} JoinBrokenSentencesNonSpace(t: string, i: nat)
    requires i <= |t|
    ensures NonSpace(JoinBrokenSentences(t, i)) == NonSpace(t[i..])
    decreases |t| - i
  {
    if i < |t| {
      var n := JoinResumeAt(t, i);
      JoinBrokenSentencesNonSpace(t, n);
      JoinStepNonSpace(t, i);
    } else {
      assert JoinBrokenSentences(t, i) == [] == t[i..];
    }
  }

  /** Where the rewrite goes on after position i: past the joined break, or the next character. */
  function JoinResumeAt(t: string, i: nat): (n: nat)
    requires i < |t|
    ensures i < n <= |t|
  {
    if BrokenSentenceAt(t, i) then SpaceRunEnd(t, i + 1) + 1 else i + 1
  }

  /** One step of the rewrite, in front of a rest that keeps the visible characters. */
  lemma JoinStepNonSpace(t: string, i: nat)
    requires i < |t|
    requires NonSpace(JoinBrokenSentences(t, JoinResumeAt(t, i))) == NonSpace(t[JoinResumeAt(t, i)..])
    ensures NonSpace(JoinBrokenSentences(t, i)) == NonSpace(t[i..])
  {
    if BrokenSentenceAt(t, i) {
      JoinedStepNonSpace(t, i);
    } else {
      KeptStepNonSpace(t, i);
    }
  }

  /** One joined sentence break, in front of a rest that keeps the visible characters. */
  lemma JoinedStepNonSpace(t: string, i: nat)
    requires i < |t| && BrokenSentenceAt(t, i)
    requires NonSpace(JoinBrokenSentences(t, SpaceRunEnd(t, i + 1) + 1)) == NonSpace(t[SpaceRunEnd(t, i + 1) + 1..])
    ensures NonSpace(JoinBrokenSentences(t, i)) == NonSpace(t[i..])
  {
    var w := SpaceRunEnd(t, i + 1);
    var rest := JoinBrokenSentences(t, w + 1);
    calc {
      NonSpace(JoinBrokenSentences(t, i));
      == { JoinedStep(t, i); }
      NonSpace([t[i], ' ', t[w]] + rest);
      == { JoinedPairNonSpace(t, i, w, rest); }
      NonSpace(t[i..]);
    }
  }

  /** At a sentence break the output is "p c" followed by the rewrite after c. */
  lemma JoinedStep(t: string, i: nat)
    requires i < |t| && BrokenSentenceAt(t, i)
    ensures var w := SpaceRunEnd(t, i + 1);
      w < |t| && JoinBrokenSentences(t, i) == [t[i], ' ', t[w]] + JoinBrokenSentences(t, w + 1)
  {
  }

  /** One character copied unchanged, in front of a rest that keeps the visible characters. */
  lemma KeptStepNonSpace(t: string, i: nat)
    requires i < |t| && !BrokenSentenceAt(t, i)
    requires NonSpace(JoinBrokenSentences(t, i + 1)) == NonSpace(t[i + 1..])
    ensures NonSpace(JoinBrokenSentences(t, i)) == NonSpace(t[i..])
  {
    KeptCharNonSpace(t, i, JoinBrokenSentences(t, i + 1));
  }

  /** One character kept in front of a rewrite that keeps the visible characters of the rest. */
  lemma KeptCharNonSpace(t: string, i: nat, rest: string)
    requires i < |t| && NonSpace(rest) == NonSpace(t[i + 1..])
    ensures NonSpace([t[i]] + rest) == NonSpace(t[i..])
  {
    assert t[i..] == [t[i]] + t[i + 1..];
    NonSpaceAppend([t[i]], t[i + 1..]);
    NonSpaceAppend([t[i]], rest);
  }

  /** The visible characters of "p c" + rest are those of t[i..] when t[i + 1..w] is whitespace. */
  lemma JoinedPairNonSpace(t: string, i: nat, w: nat, rest: string)
    requires i < w < |t| && SpacesBetween(t, i + 1, w)
    requires NonSpace(rest) == NonSpace(t[w + 1..])
    ensures NonSpace([t[i], ' ', t[w]] + rest) == NonSpace(t[i..])
  {
    assert [t[i], ' ', t[w]] + rest == [t[i], ' '] + ([t[w]] + rest);
    InsertedSpaceNonSpace(t[i], [t[w]] + rest);
    KeptCharNonSpace(t, w, rest);
    SkippedRunNonSpace(t, i, w);
  }

  /** The space put between two characters is not visible. */
  lemma InsertedSpaceNonSpace(c: char, rest: string)
    ensures NonSpace([c, ' '] + rest) == NonSpace([c]) + NonSpace(rest)
  {
    assert [c, ' '] + rest == [c] + ([' '] + rest);
    NonSpaceAppend([c], [' '] + rest);
    NonSpaceAppend([' '], rest);
  }

  /** Skipping the whitespace t[i + 1..w] after t[i] loses no visible character. */
  lemma SkippedRunNonSpace(t: string, i: nat, w: nat)
    requires i < w <= |t| && SpacesBetween(t, i + 1, w)
    ensures NonSpace(t[i..]) == NonSpace([t[i]]) + NonSpace(t[w..])
  {
    assert t[i..] == [t[i]] + (t[i + 1..w] + t[w..]);
    NonSpaceAppend([t[i]], t[i + 1..w] + t[w..]);
    NonSpaceAppend(t[i + 1..w], t[w..]);
    SpacesBetweenAllSpace(t, i + 1, w);
    NonSpaceOfSpace(t[i + 1..w]);
  }

  /** Every character of the output comes from the input, or is the inserted space. */
  lemma {:induction false} JoinBrokenSentencesChars(t: string, i: nat)
    requires i <= |t|
    ensures forall c :: c in JoinBrokenSentences(t, i) ==> c in t[i..] || c == ' '
    decreases |t| - i
  {
    if i < |t| {
      var r := JoinBrokenSentences(t, i);
      if BrokenSentenceAt(t, i) {
        var w := SpaceRunEnd(t, i + 1);
        var rest := JoinBrokenSentences(t, w + 1);
        JoinBrokenSentencesChars(t, w + 1);
        forall c | c in r ensures c in t[i..] || c == ' ' {
          if c in rest {
            assert c in t[w + 1..] || c == ' ';
            assert t[w + 1..] == t[i..][w + 1 - i..];
          } else {
            assert t[i..][0] == t[i] && t[i..][w - i] == t[w];
          }
        }
      } else {
        JoinBrokenSentencesChars(t, i + 1);
        assert t[i + 1..] == t[i..][1..];
      }
    }
  }

  /** `DocumentProcessor._clean_extracted_text`. */
  function CleanExtractedText(content: string): string {
    var collapsed := CollapseBlankLines(content, 0);
    var squashed := SquashBlanks(collapsed, 0);
    var noFeeds := FormFeedToNewline(squashed);
    var noArtifacts := DropArtifacts(noFeeds);
    Strip(JoinBrokenSentences(noArtifacts, 0))
  }

  /**
   * The cleaned text holds no tab and no character of the artifact class
   * (so Latin-1 letters are gone too), has no surrounding whitespace, and
   * keeps every other visible character of the input, in order.
   */
  lemma CleanExtractedTextSpec(content: string)
    ensures var r := CleanExtractedText(content);
      && '\t' !in r
      && (forall i :: 0 <= i < |r| ==> !IsArtifact(r[i]))
      && (r == [] || (!IsSpace(r[0]) && !IsSpace(r[|r| - 1])))
      && NonSpace(r) == DropArtifacts(NonSpace(content))
  {
    var r := CleanExtractedText(content);
    CleanedNonSpace(content);
    CleanedChars(content);
    StripEnds(JoinBrokenSentences(DropArtifacts(FormFeedToNewline(SquashBlanks(CollapseBlankLines(content, 0), 0))), 0));
    forall k | 0 <= k < |r| ensures !IsArtifact(r[k]) {
      assert r[k] in r;
    }
  }

  /** Every stage keeps the visible characters except the artifacts, which are deleted. */
  lemma CleanedNonSpace(content: string)
    ensures NonSpace(CleanExtractedText(content)) == DropArtifacts(NonSpace(content))
  {
    var collapsed := CollapseBlankLines(content, 0);
    var squashed := SquashBlanks(collapsed, 0);
    var noFeeds := FormFeedToNewline(squashed);
    var noArtifacts := DropArtifacts(noFeeds);
    var joined := JoinBrokenSentences(noArtifacts, 0);
    assert content[0..] == content && collapsed[0..] == collapsed && noArtifacts[0..] == noArtifacts;
    CollapseBlankLinesNonSpace(content, 0);
    SquashBlanksSpec(collapsed, 0);
    FormFeedToNewlineNonSpace(squashed);
    DropArtifactsNonSpace(noFeeds);
    JoinBrokenSentencesNonSpace(noArtifacts, 0);
    StripKeepsNonSpace(joined);
  }

  /** No stage after the squashing brings back a tab, and artifacts once deleted stay deleted. */
  lemma CleanedChars(content: string)
    ensures forall c :: c in CleanExtractedText(content) ==> c != '\t' && !IsArtifact(c)
  {
    var collapsed := CollapseBlankLines(content, 0);
    var squashed := SquashBlanks(collapsed, 0);
    var noFeeds := FormFeedToNewline(squashed);
    var noArtifacts := DropArtifacts(noFeeds);
    var joined := JoinBrokenSentences(noArtifacts, 0);
    var r := Strip(joined);
    assert noArtifacts[0..] == noArtifacts;
    SquashBlanksSpec(collapsed, 0);
    assert '\t' !in noFeeds;
    assert forall c :: c in noArtifacts ==> c != '\t' && !IsArtifact(c) by {
      forall c | c in noArtifacts ensures c != '\t' && !IsArtifact(c) {
        var k :| 0 <= k < |noArtifacts| && noArtifacts[k] == c;
      }
    }
    JoinBrokenSentencesChars(noArtifacts, 0);
    StripSpec(joined);
    assert forall c :: c in r ==> c in joined;
  }

  // ---------------------------------------------------------------------------
  // _split_narrative_sections
  // ---------------------------------------------------------------------------

  /** The letters of the header class `[A-ZÁÉÍÓÚÑÜ\s]`. */
  predicate IsHeaderChar(c: char) {
    IsAsciiUpper(c) || IsSpace(c)
    || c == '\U{C1}' || c == '\U{C9}' || c == '\U{CD}' || c == '\U{D3}' || c == '\U{DA}'
    || c == '\U{D1}' || c == '\U{DC}'
  }

  /**
   * `re.match(r'^(?:\d+\.?\s*)?([A-ZÁÉÍÓÚÑÜ\s]{10,}?)(?:\n|$)', u)` on a line
   * without newline: after the optional number and its optional dot, the
   * whole rest is at least ten header characters (the class holds the
   * whitespace the `\s*` could take).
   */
  predicate HeaderPattern(u: string) {
    var k := DigitRunEnd(u, 0);
    var j := if 0 < k < |u| && u[k] == '.' then k + 1 else k;
    |u| - j >= 10 && forall m :: j <= m < |u| ==> IsHeaderChar(u[m])
  }

  /** A stripped line that starts a new section. */
  predicate IsHeaderLine(line: string) {
    HeaderPattern(Upper(line)) && |line| < 100
  }

  /**
   * The header test runs on the upper-cased line, where ß has become "SS":
   * capitals and spaces around a ß make a header, as in "GROß ANALYSE",
   * though ß itself is not in the header class.
   */
  lemma SharpSHeaderLine(a: string, b: string)
    requires forall i :: 0 <= i < |a| ==> IsAsciiUpper(a[i]) || a[i] == ' '
    requires forall i :: 0 <= i < |b| ==> IsAsciiUpper(b[i]) || b[i] == ' '
    requires 8 <= |a| + |b| < 98
    ensures IsHeaderLine(a + ['\U{DF}'] + b) && !IsHeaderChar('\U{DF}')
  {
    var u := a + "SS" + b;
    UpperAroundSharpS(a, b);
    CapitalsAreHeaderChars(a, b, u);
    HeaderPatternOfHeaderChars(u);
  }

  /** Upper-casing capitals and spaces around a ß only doubles the S. */
  lemma UpperAroundSharpS(a: string, b: string)
    requires forall i :: 0 <= i < |a| ==> IsAsciiUpper(a[i]) || a[i] == ' '
    requires forall i :: 0 <= i < |b| ==> IsAsciiUpper(b[i]) || b[i] == ' '
    ensures Upper(a + ['\U{DF}'] + b) == a + "SS" + b
  {
    UpperAppend3(a, ['\U{DF}'], b);
    UpperOfCapitals(a);
    UpperOfCapitals(b);
    UpperSharpS();
  }

  /** Ten or more header characters, with no digit in front, match the header pattern. */
  lemma HeaderPatternOfHeaderChars(u: string)
    requires |u| >= 10 && forall m :: 0 <= m < |u| ==> IsHeaderChar(u[m])
    ensures HeaderPattern(u)
  {
    assert !IsAsciiDigit(u[0]);
    assert DigitRunEnd(u, 0) == 0;
  }

  lemma CapitalsAreHeaderChars(a: string, b: string, u: string)
    requires forall i :: 0 <= i < |a| ==> IsAsciiUpper(a[i]) || a[i] == ' '
    requires forall i :: 0 <= i < |b| ==> IsAsciiUpper(b[i]) || b[i] == ' '
    requires u == a + "SS" + b
    ensures forall m :: 0 <= m < |u| ==> IsHeaderChar(u[m])
  {
    forall m | 0 <= m < |u|
      ensures IsHeaderChar(u[m])
    {
      if m >= |a| + 2 {
        assert u[m] == b[m - |a| - 2];
      } else if m < |a| {
        assert u[m] == a[m];
      }
    }
  }

  /** One `(title, content)` pair of the result; a None title is Python's None. */
  datatype Section = Section(title: Option<string>, body: string)

  /** The loop's variables: `sections`, `current_title`, `current_section`. */
  datatype Splitter = Splitter(sections: seq<Section>, title: Option<string>, current: string)

  /** Emitting the section in progress, when it has a title or visible content. */
  function Flush(acc: Splitter): seq<Section> {
    if acc.title.Some? || !IsBlank(acc.current) then acc.sections + [Section(acc.title, Strip(acc.current))]
    else acc.sections
  }

  /** One iteration of the loop. */
  function SplitStep(acc: Splitter, raw: string): Splitter {
    var line := Strip(raw);
    if line == [] then acc.(current := acc.current + "\n")
    else if IsHeaderLine(line) then Splitter(Flush(acc), Some(Title(line)), "")
    else acc.(current := acc.current + line + "\n")
  }

  /** The loop's state after the given lines. */
  function SplitLines(lines: seq<string>): Splitter {
    if lines == [] then Splitter([], None, "")
    else SplitStep(SplitLines(lines[..|lines| - 1]), lines[|lines| - 1])
  }

  /** What `_split_narrative_sections` returns. */
  function NarrativeSections(narrative: string): seq<Section> {
    Flush(SplitLines(SplitOn(narrative, "\n")))
  }

  /** `DocumentProcessor._split_narrative_sections`. */
  method SplitNarrativeSections(narrative: string) returns (sections: seq<Section>)
    ensures sections == NarrativeSections(narrative)
  {
    var lines := SplitOn(narrative, "\n");
    sections := [];
    var currentSection := "";
    var currentTitle: Option<string> := None;
    var i := 0;
    while i < |lines|
      invariant 0 <= i <= |lines|
      invariant Splitter(sections, currentTitle, currentSection) == SplitLines(lines[..i])
    {
      assert lines[..i + 1][..i] == lines[..i];
      var line := Strip(lines[i]);
      if line == [] {
        currentSection := currentSection + "\n";
      } else if IsHeaderLine(line) {
        if currentTitle.Some? || !IsBlank(currentSection) {
          sections := sections + [Section(currentTitle, Strip(currentSection))];
        }
        currentTitle := Some(Title(line));
        currentSection := "";
      } else {
        currentSection := currentSection + line + "\n";
      }
      i := i + 1;
    }
    assert lines[..|lines|] == lines;
    if currentTitle.Some? || !IsBlank(currentSection) {
      sections := sections + [Section(currentTitle, Strip(currentSection))];
    }
  }

  /** The titles of the titled sections, in order. */
  function TitlesOf(sections: seq<Section>): seq<string> {
    if sections == [] then []
    else TitlesOf(sections[..|sections| - 1]) + OptionList(sections[|sections| - 1].title)
  }

  /** The titles the header lines produce, in order. */
  function HeaderTitles(lines: seq<string>): seq<string> {
    if lines == [] then []
    else
      var line := Strip(lines[|lines| - 1]);
      HeaderTitles(lines[..|lines| - 1]) + (if line != [] && IsHeaderLine(line) then [Title(line)] else [])
  }

  function OptionList(t: Option<string>): seq<string> {
    match t case Some(x) => [x] case None => []
  }

  /** What the loop keeps true of its variables. */
  predicate SplitterInvariant(acc: Splitter, lines: seq<string>) {
    && (forall i :: 0 < i < |acc.sections| ==> acc.sections[i].title.Some?)
    && (|acc.sections| > 0 ==> acc.title.Some?)
    && (forall i :: 0 <= i < |acc.sections| ==> acc.sections[i].title.Some? || acc.sections[i].body != [])
    && TitlesOf(acc.sections) + OptionList(acc.title) == HeaderTitles(lines)
  }

  lemma FlushKeeps(acc: Splitter)
    ensures var r := Flush(acc);
      && r[..|acc.sections|] == acc.sections
      && TitlesOf(r) == TitlesOf(acc.sections) + OptionList(acc.title)
      && (|r| > |acc.sections| ==> (r[|r| - 1].title.Some? || r[|r| - 1].body != []))
      && |r| <= |acc.sections| + 1
  {
    var r := Flush(acc);
    if |r| > |acc.sections| {
      assert r[..|r| - 1] == acc.sections;
      StripEmptyIffBlank(acc.current);
    }
  }

  lemma {:induction false} SplitLinesInvariant(lines: seq<string>)
    ensures SplitterInvariant(SplitLines(lines), lines)
  {
    if lines != [] {
      var prev := lines[..|lines| - 1];
      var raw := lines[|lines| - 1];
      assert prev + [raw] == lines;
      assert SplitLines(lines) == SplitStep(SplitLines(prev), raw);
      SplitLinesInvariant(prev);
      SplitStepInvariant(SplitLines(prev), prev, raw);
    }
  }

  /** One iteration of the loop keeps its invariant. */
  lemma SplitStepInvariant(acc: Splitter, prev: seq<string>, raw: string)
    requires SplitterInvariant(acc, prev)
    ensures SplitterInvariant(SplitStep(acc, raw), prev + [raw])
  {
    var line := Strip(raw);
    if line != [] && IsHeaderLine(line) {
      HeaderStepInvariant(acc, prev, raw);
    } else {
      PlainStepInvariant(acc, prev, raw);
    }
  }

  /** A header line flushes the section in progress and opens a titled one. */
  lemma HeaderStepInvariant(acc: Splitter, prev: seq<string>, raw: string)
    requires SplitterInvariant(acc, prev) && Strip(raw) != [] && IsHeaderLine(Strip(raw))
    ensures SplitterInvariant(SplitStep(acc, raw), prev + [raw])
  {
    var lines := prev + [raw];
    var line := Strip(raw);
    assert lines[..|prev|] == prev && lines[|prev|] == raw;
    assert HeaderTitles(lines) == HeaderTitles(prev) + [Title(line)];
    FlushKeeps(acc);
    var r := Flush(acc);
    assert SplitStep(acc, raw) == Splitter(r, Some(Title(line)), "");
    assert forall i :: 0 <= i < |acc.sections| ==> r[i] == acc.sections[i];
  }

  /** Any other line only extends the section in progress. */
  lemma PlainStepInvariant(acc: Splitter, prev: seq<string>, raw: string)
    requires SplitterInvariant(acc, prev) && !(Strip(raw) != [] && IsHeaderLine(Strip(raw)))
    ensures SplitterInvariant(SplitStep(acc, raw), prev + [raw])
  {
    var lines := prev + [raw];
    assert lines[..|prev|] == prev && lines[|prev|] == raw;
    assert HeaderTitles(lines) == HeaderTitles(prev) + [];
    var next := SplitStep(acc, raw);
    assert next.sections == acc.sections && next.title == acc.title;
  }

  /**
   * The sections follow the headers: each header line gives exactly one
   * titled section, in order; only the first section can be untitled; every
   * section has a title or visible content.
   */
  lemma NarrativeSectionsSpec(narrative: string)
    ensures var r := NarrativeSections(narrative);
      && TitlesOf(r) == HeaderTitles(SplitOn(narrative, "\n"))
      && (forall i :: 0 < i < |r| ==> r[i].title.Some?)
      && (forall i :: 0 <= i < |r| ==> r[i].title.Some? || r[i].body != [])
  {
    var lines := SplitOn(narrative, "\n");
    SplitLinesInvariant(lines);
    FlushFinal(SplitLines(lines), lines);
  }

  /** The final flush turns the loop invariant into the properties of the result. */
  lemma FlushFinal(acc: Splitter, lines: seq<string>)
    requires SplitterInvariant(acc, lines)
    ensures var r := Flush(acc);
      && TitlesOf(r) == HeaderTitles(lines)
      && (forall i :: 0 < i < |r| ==> r[i].title.Some?)
      && (forall i :: 0 <= i < |r| ==> r[i].title.Some? || r[i].body != [])
  {
    FlushKeeps(acc);
    var r := Flush(acc);
    var n := |acc.sections|;
    forall i | 0 <= i < |r| ensures (0 < i ==> r[i].title.Some?) && (r[i].title.Some? || r[i].body != []) {
      if i < n {
        assert r[i] == r[..n][i] == acc.sections[i];
      } else {
        assert r == acc.sections + [Section(acc.title, Strip(acc.current))];
      }
    }
  }

  /** A raw line that, stripped, starts a new section. */
  predicate IsHeaderRaw(raw: string) {
    Strip(raw) != [] && IsHeaderLine(Strip(raw))
  }

  /** The lines from one header (or from the start) up to the next header. */
  datatype Group = Group(title: Option<string>, lines: seq<string>)

  /**
   * The lines cut at the header lines: an untitled group for the lines
   * before the first header, then one group per header, titled with the
   * header's title case and holding the lines after it.
   */
  function GroupLines(lines: seq<string>): (gs: seq<Group>)
    ensures gs != [] && gs[0].title.None?
  {
    if lines == [] then [Group(None, [])]
    else
      var gs := GroupLines(lines[..|lines| - 1]);
      var raw := lines[|lines| - 1];
      if IsHeaderRaw(raw) then gs + [Group(Some(Title(Strip(raw))), [])]
      else
        var g := gs[|gs| - 1];
        gs[..|gs| - 1] + [g.(lines := g.lines + [raw])]
  }

  /** The text body lines contribute: each stripped line and a newline, a blank line only the newline. */
  function BodyText(lines: seq<string>): string {
    if lines == [] then ""
    else
      var line := Strip(lines[|lines| - 1]);
      BodyText(lines[..|lines| - 1]) + (if line == [] then "\n" else line + "\n")
  }

  /** The sections of the groups: a group is kept when it has a title or visible text, its body stripped. */
  function SectionsOf(gs: seq<Group>): seq<Section> {
    if gs == [] then []
    else
      var g := gs[|gs| - 1];
      SectionsOf(gs[..|gs| - 1])
        + (if g.title.Some? || !IsBlank(BodyText(g.lines)) then [Section(g.title, Strip(BodyText(g.lines)))] else [])
  }

  /** The loop's variables in terms of the groups seen so far: the last group is still open. */
  function Pending(gs: seq<Group>): Splitter
    requires gs != []
  {
    var g := gs[|gs| - 1];
    Splitter(SectionsOf(gs[..|gs| - 1]), g.title, BodyText(g.lines))
  }

  lemma {:induction false} SplitLinesGroups(lines: seq<string>)
    ensures SplitLines(lines) == Pending(GroupLines(lines))
  {
    if lines != [] {
      var prev := lines[..|lines| - 1];
      var raw := lines[|lines| - 1];
      SplitLinesGroups(prev);
      if IsHeaderRaw(raw) {
        HeaderStepGroups(GroupLines(prev), raw);
      } else {
        BodyStepGroups(GroupLines(prev), raw);
      }
    }
  }

  /** A header line closes the open group and opens an empty titled one. */
  lemma HeaderStepGroups(gs: seq<Group>, raw: string)
    requires gs != [] && IsHeaderRaw(raw)
    ensures SplitStep(Pending(gs), raw) == Pending(gs + [Group(Some(Title(Strip(raw))), [])])
  {
    var next := gs + [Group(Some(Title(Strip(raw))), [])];
    assert next[..|gs|] == gs;
    assert SectionsOf(gs) == Flush(Pending(gs));
  }

  /** Any other line joins the open group. */
  lemma BodyStepGroups(gs: seq<Group>, raw: string)
    requires gs != [] && !IsHeaderRaw(raw)
    ensures var g := gs[|gs| - 1];
      SplitStep(Pending(gs), raw) == Pending(gs[..|gs| - 1] + [g.(lines := g.lines + [raw])])
  {
    var g := gs[|gs| - 1];
    var ls := g.lines + [raw];
    var next := gs[..|gs| - 1] + [g.(lines := ls)];
    assert next[..|next| - 1] == gs[..|gs| - 1];
    assert ls[..|ls| - 1] == g.lines;
    var line := Strip(raw);
    assert BodyText(g.lines) + line + "\n" == BodyText(g.lines) + (line + "\n");
  }

  /** The lines of the groups, one group after another. */
  function FlattenGroups(gs: seq<Group>): seq<string> {
    if gs == [] then [] else FlattenGroups(gs[..|gs| - 1]) + gs[|gs| - 1].lines
  }

  /** The lines that are not header lines, in order. */
  function BodyLines(lines: seq<string>): seq<string> {
    if lines == [] then []
    else BodyLines(lines[..|lines| - 1]) + (if IsHeaderRaw(lines[|lines| - 1]) then [] else [lines[|lines| - 1]])
  }

  /**
   * The groups partition the lines: together they hold every non-header
   * line once, in order; there is one group more than there are headers,
   * and only the first is untitled.
   */
  predicate PartitionsLines(gs: seq<Group>, lines: seq<string>) {
    && FlattenGroups(gs) == BodyLines(lines)
    && |gs| == 1 + |HeaderTitles(lines)|
    && (forall i :: 0 < i < |gs| ==> gs[i].title.Some?)
  }

  lemma {:induction false} GroupLinesShape(lines: seq<string>)
    ensures PartitionsLines(GroupLines(lines), lines)
  {
    if lines != [] {
      var prev := lines[..|lines| - 1];
      var raw := lines[|lines| - 1];
      GroupLinesShape(prev);
      assert prev + [raw] == lines;
      if IsHeaderRaw(raw) {
        HeaderGroupShape(GroupLines(prev), prev, raw);
      } else {
        BodyGroupShape(GroupLines(prev), prev, raw);
      }
    }
  }

  lemma HeaderGroupShape(gs: seq<Group>, prev: seq<string>, raw: string)
    requires gs != [] && PartitionsLines(gs, prev) && IsHeaderRaw(raw)
    ensures PartitionsLines(gs + [Group(Some(Title(Strip(raw))), [])], prev + [raw])
  {
    var lines := prev + [raw];
    assert lines[..|prev|] == prev && lines[|prev|] == raw;
    var next := gs + [Group(Some(Title(Strip(raw))), [])];
    assert next[..|gs|] == gs;
  }

  lemma BodyGroupShape(gs: seq<Group>, prev: seq<string>, raw: string)
    requires gs != [] && PartitionsLines(gs, prev) && !IsHeaderRaw(raw)
    ensures var g := gs[|gs| - 1];
      PartitionsLines(gs[..|gs| - 1] + [g.(lines := g.lines + [raw])], prev + [raw])
  {
    var g := gs[|gs| - 1];
    var g' := g.(lines := g.lines + [raw]);
    PlainLineAppend(prev, raw);
    assert gs == gs[..|gs| - 1] + [g];
    BodyFlatten(gs[..|gs| - 1], g, raw);
    LastReplacedTitles(gs, g');
  }

  /** Appending a line to the last group appends it to the flattened lines. */
  lemma BodyFlatten(init: seq<Group>, g: Group, raw: string)
    ensures FlattenGroups(init + [g.(lines := g.lines + [raw])]) == FlattenGroups(init + [g]) + [raw]
  {
    FlattenSnoc(init, g);
    FlattenSnoc(init, g.(lines := g.lines + [raw]));
    var f := FlattenGroups(init);
    assert f + (g.lines + [raw]) == (f + g.lines) + [raw];
  }

  /** A line that is not a header adds a body line and no title. */
  lemma PlainLineAppend(prev: seq<string>, raw: string)
    requires !IsHeaderRaw(raw)
    ensures BodyLines(prev + [raw]) == BodyLines(prev) + [raw]
    ensures HeaderTitles(prev + [raw]) == HeaderTitles(prev)
  {
    var lines := prev + [raw];
    assert lines[..|prev|] == prev && lines[|prev|] == raw;
  }

  lemma FlattenSnoc(init: seq<Group>, g: Group)
    ensures FlattenGroups(init + [g]) == FlattenGroups(init) + g.lines
  {
    assert (init + [g])[..|init|] == init;
  }

  /** Replacing the last group by one with the same title keeps the titles. */
  lemma LastReplacedTitles(gs: seq<Group>, g': Group)
    requires gs != [] && g'.title == gs[|gs| - 1].title
    requires forall i :: 0 < i < |gs| ==> gs[i].title.Some?
    ensures var next := gs[..|gs| - 1] + [g'];
      |next| == |gs| && forall i :: 0 < i < |next| ==> next[i].title.Some?
  {
    var next := gs[..|gs| - 1] + [g'];
    assert forall i :: 0 <= i < |next| - 1 ==> next[i] == gs[i];
  }

  /**
   * What the sections hold: cut the lines at the header lines; every group
   * with a title or visible text becomes one section, in order, whose body
   * is the group's stripped lines, each followed by a newline (a blank line
   * being a newline alone), stripped as a whole.
   */
  lemma NarrativeSectionsGroups(narrative: string)
    ensures NarrativeSections(narrative) == SectionsOf(GroupLines(SplitOn(narrative, "\n")))
  {
    var lines := SplitOn(narrative, "\n");
    SplitLinesGroups(lines);
  }

  // ---------------------------------------------------------------------------
  // _detect_language
  // ---------------------------------------------------------------------------

  const SpanishIndicators: seq<string> := [
    "el", "la", "de", "que", "y", "es", "en", "un", "se", "no", "te", "lo", "le", "da", "su",
    "por", "son", "con", "para", "al", "proyecto", "desarrollo"]

  const EnglishIndicators: seq<string> := [
    "the", "and", "of", "to", "a", "in", "is", "it", "you", "that", "he", "was", "for", "on",
    "are", "as", "with", "his", "they", "project", "development"]

  /** `sum(1 for word in words if word in indicators)`. */
  function IndicatorCount(words: seq<string>, indicators: seq<string>): (n: nat)
    ensures n <= |words|
  {
    if words == [] then 0
    else IndicatorCount(words[..|words| - 1], indicators) + (if words[|words| - 1] in indicators then 1 else 0)
  }

  /** The verdict on a sample of words. */
  function LanguageOfWords(words: seq<string>): string {
    var es := IndicatorCount(words, SpanishIndicators);
    var en := IndicatorCount(words, EnglishIndicators);
    if es > en then "Spanish (likely)" else if en > es then "English (likely)" else "Unknown"
  }

  /** `words[:200]`. */
  function Sample(words: seq<string>): (r: seq<string>)
    ensures |r| <= 200 && |r| <= |words| && r == words[..|r|]
    ensures |words| >= 200 ==> |r| == 200
  {
    if |words| > 200 then words[..200] else words
  }

  /** `DocumentProcessor._detect_language`. */
  function DetectLanguage(content: string): string {
    LanguageOfWords(Sample(Words(Lower(content))))
  }

  /** The two indicator lists share no word. */
  lemma IndicatorsDisjoint(w: string)
    ensures !(w in SpanishIndicators && w in EnglishIndicators)
  {
    if w in SpanishIndicators && w in EnglishIndicators {
      SpanishShapes(w);
      EnglishShapes(w);
    }
  }

  /** A word's length with its first and last letters, which tell the indicator lists apart. */
  function Shape(w: string): (nat, char, char) {
    if w == [] then (0, ' ', ' ') else (|w|, w[0], w[|w| - 1])
  }

  /** The shapes of the Spanish indicators. */
  lemma SpanishShapes(w: string)
    requires w in SpanishIndicators
    ensures Shape(w) in {(2, 'e', 'l'), (2, 'l', 'a'), (2, 'd', 'e'), (3, 'q', 'e'), (1, 'y', 'y'),
      (2, 'e', 's'), (2, 'e', 'n'), (2, 'u', 'n'), (2, 's', 'e'), (2, 'n', 'o'), (2, 't', 'e'),
      (2, 'l', 'o'), (2, 'l', 'e'), (2, 'd', 'a'), (2, 's', 'u'), (3, 'p', 'r'), (3, 's', 'n'),
      (3, 'c', 'n'), (4, 'p', 'a'), (2, 'a', 'l'), (8, 'p', 'o'), (10, 'd', 'o')}
  {
  }

  /** The shapes of the English indicators, none of them a Spanish one's. */
  lemma EnglishShapes(w: string)
    requires w in EnglishIndicators
    ensures Shape(w) in {(3, 't', 'e'), (3, 'a', 'd'), (2, 'o', 'f'), (2, 't', 'o'), (1, 'a', 'a'),
      (2, 'i', 'n'), (2, 'i', 's'), (2, 'i', 't'), (3, 'y', 'u'), (4, 't', 't'), (2, 'h', 'e'),
      (3, 'w', 's'), (3, 'f', 'r'), (2, 'o', 'n'), (3, 'a', 'e'), (2, 'a', 's'), (4, 'w', 'h'),
      (3, 'h', 's'), (4, 't', 'y'), (7, 'p', 't'), (11, 'd', 't')}
  {
  }

  /** A word counts for at most one language, so the two counts add up to at most the sample size. */
  lemma {:induction false} IndicatorCountsBounded(words: seq<string>)
    ensures IndicatorCount(words, SpanishIndicators) + IndicatorCount(words, EnglishIndicators) <= |words|
  {
    if words != [] {
      IndicatorCountsBounded(words[..|words| - 1]);
      IndicatorsDisjoint(words[|words| - 1]);
    }
  }

  /** Words after the first 200 never change the verdict. */
  lemma SampleIgnoresTail(words: seq<string>, more: seq<string>)
    requires |words| >= 200
    ensures LanguageOfWords(Sample(words + more)) == LanguageOfWords(Sample(words))
  {
    assert (words + more)[..200] == words[..200];
  }

  /** A sample made only of Spanish indicators is judged Spanish. */
  lemma {:induction false} AllSpanishIsSpanish(words: seq<string>)
    requires words != [] && forall i :: 0 <= i < |words| ==> words[i] in SpanishIndicators
    ensures LanguageOfWords(words) == "Spanish (likely)"
  {
    AllIndicatorsCounted(words, SpanishIndicators, EnglishIndicators);
  }

  lemma {:induction false} AllIndicatorsCounted(words: seq<string>, yes: seq<string>, no: seq<string>)
    requires yes == SpanishIndicators && no == EnglishIndicators
    requires forall i :: 0 <= i < |words| ==> words[i] in yes
    ensures IndicatorCount(words, yes) == |words| && IndicatorCount(words, no) == 0
  {
    if words != [] {
      AllIndicatorsCounted(words[..|words| - 1], yes, no);
      IndicatorsDisjoint(words[|words| - 1]);
    }
  }

  // ---------------------------------------------------------------------------
  // count_syllables (nested in _calculate_readability)
  // ---------------------------------------------------------------------------

  predicate IsVowel(c: char) {
    c == 'a' || c == 'e' || c == 'i' || c == 'o' || c == 'u' || c == 'y'
  }

  /** The number of maximal runs of vowels. */
  function VowelRuns(s: string): nat {
    if s == [] then 0
    else
      var n := |s|;
      VowelRuns(s[..n - 1]) + (if IsVowel(s[n - 1]) && (n == 1 || !IsVowel(s[n - 2])) then 1 else 0)
  }

  /** What `count_syllables` returns. */
  function Syllables(word: string): (n: nat)
    ensures n >= 1
  {
    var w := Lower(word);
    var count := VowelRuns(w);
    var adjusted := if EndsWith(w, "e") && count > 1 then count - 1 else count;
    if adjusted < 1 then 1 else adjusted
  }

  /** `count_syllables`: the loop with the `previous_was_vowel` flag. */
  method CountSyllables(word: string) returns (count: nat)
    ensures count == Syllables(word)
    ensures count >= 1
  {
    var w := Lower(word);
    count := 0;
    var previousWasVowel := false;
    var i := 0;
    while i < |w|
      invariant 0 <= i <= |w|
      invariant count == VowelRuns(w[..i])
      invariant previousWasVowel <==> i > 0 && IsVowel(w[i - 1])
    {
      assert w[..i + 1][..i] == w[..i];
      if IsVowel(w[i]) {
        if !previousWasVowel {
          count := count + 1;
        }
        previousWasVowel := true;
      } else {
        previousWasVowel := false;
      }
      i := i + 1;
    }
    assert w[..|w|] == w;
    if EndsWith(w, "e") && count > 1 {
      count := count - 1;
    }
    if count < 1 {
      count := 1;
    }
  }

  /** Vowel runs are separated by consonants, so there are at most half as many as characters (rounded up). */
  lemma {:induction false} VowelRunsBound(s: string)
    ensures 2 * VowelRuns(s) <= |s| + (if s != [] && IsVowel(s[|s| - 1]) then 1 else 0)
  {
    if s != [] {
      VowelRunsBound(s[..|s| - 1]);
    }
  }

  /** A word never has more syllables than half its length, rounded up, and at least one. */
  lemma SyllablesBound(word: string)
    ensures 1 <= Syllables(word) <= if |word| <= 1 then 1 else (|word| + 1) / 2
  {
    VowelRunsBound(Lower(word));
  }

  // ---------------------------------------------------------------------------
  // get_missing_dependencies
  // ---------------------------------------------------------------------------

  /** What `check_dependencies` reports (the import probes are not modelled). */
  datatype Dependencies = Dependencies(pypdf: bool, docx: bool, pdfminer: bool, docxtpl: bool, openpyxl: bool)

  const InstallCommands: seq<string> := [
    "pip install pypdf", "pip install python-docx", "pip install pdfminer.six",
    "pip install docxtpl", "pip install openpyxl"]

  /** Whether the i-th dependency, in the order of InstallCommands, is available. */
  function Available(d: Dependencies, i: nat): bool
    requires i < 5
  {
    [d.pypdf, d.docx, d.pdfminer, d.docxtpl, d.openpyxl][i]
  }

  /** The commands from index i on whose dependency is missing. */
  function MissingFrom(d: Dependencies, i: nat): (r: seq<string>)
    requires i <= 5
    ensures |r| <= 5 - i
    decreases 5 - i
  {
    if i == 5 then []
    else (if Available(d, i) then [] else [InstallCommands[i]]) + MissingFrom(d, i + 1)
  }

  /** `DocumentProcessor.get_missing_dependencies`. */
  function GetMissingDependencies(d: Dependencies): seq<string> {
    MissingFrom(d, 0)
  }

  /** The indices, from i on, of the unavailable dependencies. */
  function MissingIndices(d: Dependencies, i: nat): (r: seq<nat>)
    requires i <= 5
    ensures forall a :: 0 <= a < |r| ==> i <= r[a] < 5
    ensures forall a, b :: 0 <= a < b < |r| ==> r[a] < r[b]
    ensures forall j :: i <= j < 5 ==> (j in r <==> !Available(d, j))
    decreases 5 - i
  {
    if i == 5 then []
    else (if Available(d, i) then [] else [i]) + MissingIndices(d, i + 1)
  }

  /** The install commands at the given indices. */
  function CommandsAt(indices: seq<nat>): seq<string>
    requires forall a :: 0 <= a < |indices| ==> indices[a] < 5
  {
    if indices == [] then [] else [InstallCommands[indices[0]]] + CommandsAt(indices[1..])
  }

  /**
   * One install command per unavailable dependency, and only those, in the
   * fixed order pypdf, python-docx, pdfminer, docxtpl, openpyxl: the commands
   * at the increasing indices of the unavailable dependencies.
   */
  lemma {:induction false} MissingFromSpec(d: Dependencies, i: nat)
    requires i <= 5
    ensures MissingFrom(d, i) == CommandsAt(MissingIndices(d, i))
    decreases 5 - i
  {
    if i < 5 {
      MissingFromSpec(d, i + 1);
      MissingFromStep(d, i);
    }
  }

  /** One index more: an available dependency adds nothing, a missing one its command in front. */
  lemma MissingFromStep(d: Dependencies, i: nat)
    requires i < 5
    requires MissingFrom(d, i + 1) == CommandsAt(MissingIndices(d, i + 1))
    ensures MissingFrom(d, i) == CommandsAt(MissingIndices(d, i))
  {
    var rest := MissingIndices(d, i + 1);
    if Available(d, i) {
      assert MissingIndices(d, i) == rest;
      assert MissingFrom(d, i) == MissingFrom(d, i + 1);
    } else {
      assert MissingIndices(d, i) == [i] + rest;
      assert ([i] + rest)[1..] == rest;
      assert CommandsAt([i] + rest) == [InstallCommands[i]] + CommandsAt(rest);
      assert MissingFrom(d, i) == [InstallCommands[i]] + MissingFrom(d, i + 1);
    }
  }

  lemma MissingDependenciesSpec(d: Dependencies)
    ensures GetMissingDependencies(d) == CommandsAt(MissingIndices(d, 0))
  {
    MissingFromSpec(d, 0);
  }

  // ---------------------------------------------------------------------------
  // _prepare_template_context
  // ---------------------------------------------------------------------------

  /**
   * `str(value)`: strings as they are, booleans and integers as Python prints
   * them; `show` renders floats, lists and nested dicts.
   */
  function PyStrOf(v: Value, show: Value -> string): string {
    match v
    case Null => "None"
    case Str(s) => s
    case Bool(b) => if b then "True" else "False"
    case Int(i) => IntToString(i)
    case _ => show(v)
  }

  /** The text stored for a value: "" for None, `str(value)` otherwise. */
  function TemplateText(v: Value, show: Value -> string): string {
    if v.Null? then "" else PyStrOf(v, show)
  }

  /** The key `f"{key}_{sub_key}"`. */
  function SubKey(key: string, sub: string): (r: string)
    ensures |r| == |key| + 1 + |sub| && r[|key| + 1..] == sub
  {
    key + "_" + sub
  }

  /** The flattened entries of a dict value. */
  function FlattenDict(key: string, fields: map<string, Value>, show: Value -> string): (m: map<string, string>)
    ensures m.Keys == set sub | sub in fields :: SubKey(key, sub)
    ensures forall sub :: sub in fields ==> m[SubKey(key, sub)] == TemplateText(fields[sub], show)
  {
    map sub | sub in fields :: SubKey(key, sub) := TemplateText(fields[sub], show)
  }

  /** The keys one entry of the context writes. */
  function KeysOf(item: (string, Value)): set<string> {
    if item.1.Obj? then set sub | sub in item.1.fields :: SubKey(item.0, sub) else {item.0}
  }

  /** One iteration of the loop over `context.items()`. */
  function AddEntry(safe: map<string, string>, item: (string, Value), show: Value -> string): (r: map<string, string>)
    ensures r.Keys == safe.Keys + KeysOf(item)
    ensures forall k :: k in safe && k !in KeysOf(item) ==> r[k] == safe[k]
  {
    var (key, value) := item;
    if value.Obj? then safe + FlattenDict(key, value.fields, show)
    else safe[key := TemplateText(value, show)]
  }

  /** The dict after the loop over the given entries. */
  function ContextEntries(items: seq<(string, Value)>, show: Value -> string): map<string, string> {
    if items == [] then map[]
    else AddEntry(ContextEntries(items[..|items| - 1], show), items[|items| - 1], show)
  }

  /** What `_prepare_template_context` returns; the two dates are parameters. */
  function TemplateContext(items: seq<(string, Value)>, show: Value -> string, date: string, dateTime: string): map<string, string> {
    ContextEntries(items, show)["current_date" := date]["current_datetime" := dateTime]
  }

  /** `DocumentProcessor._prepare_template_context`, the context dict as its entries in order. */
  method PrepareTemplateContext(items: seq<(string, Value)>, show: Value -> string, date: string, dateTime: string)
    returns (safe: map<string, string>)
    ensures safe == TemplateContext(items, show, date, dateTime)
  {
    safe := map[];
    var i := 0;
    while i < |items|
      invariant 0 <= i <= |items|
      invariant safe == ContextEntries(items[..i], show)
    {
      assert items[..i + 1][..i] == items[..i];
      var (key, value) := items[i];
      if value.Null? {
        safe := safe[key := ""];
      } else if value.Obj? {
        safe := safe + FlattenDict(key, value.fields, show);
      } else {
        safe := safe[key := PyStrOf(value, show)];
      }
      i := i + 1;
    }
    assert items[..|items|] == items;
    safe := safe["current_date" := date];
    safe := safe["current_datetime" := dateTime];
  }

  /** The keys written by a list of entries. */
  function KeysOfAll(items: seq<(string, Value)>): set<string> {
    if items == [] then {} else KeysOfAll(items[..|items| - 1]) + KeysOf(items[|items| - 1])
  }

  /** Entries written later leave a key alone unless they write it themselves. */
  lemma {:induction false} LaterEntriesKeep(p: seq<(string, Value)>, q: seq<(string, Value)>, show: Value -> string, k: string)
    requires k in ContextEntries(p, show) && k !in KeysOfAll(q)
    ensures k in ContextEntries(p + q, show) && ContextEntries(p + q, show)[k] == ContextEntries(p, show)[k]
    decreases |q|
  {
    if q == [] {
      assert p + q == p;
    } else {
      var q', last := q[..|q| - 1], q[|q| - 1];
      assert (p + q)[..|p + q| - 1] == p + q' && (p + q)[|p + q| - 1] == last;
      LaterEntriesKeep(p, q', show, k);
      assert k !in KeysOf(last);
      assert ContextEntries(p + q, show) == AddEntry(ContextEntries(p + q', show), last, show);
    }
  }

  lemma {:induction false} ContextEntriesKeys(items: seq<(string, Value)>, show: Value -> string)
    ensures ContextEntries(items, show).Keys == KeysOfAll(items)
  {
    if items != [] {
      ContextEntriesKeys(items[..|items| - 1], show);
    }
  }

  /** The result holds exactly the written keys and the two dates. */
  lemma TemplateContextKeys(items: seq<(string, Value)>, show: Value -> string, date: string, dateTime: string)
    ensures var r := TemplateContext(items, show, date, dateTime);
      && r.Keys == KeysOfAll(items) + {"current_date", "current_datetime"}
      && r["current_date"] == date && r["current_datetime"] == dateTime
  {
    ContextEntriesKeys(items, show);
  }

  /** A plain entry that no later entry overwrites is stored as its text. */
  lemma TemplateContextPlainEntry(p: seq<(string, Value)>, key: string, value: Value, q: seq<(string, Value)>,
                                  show: Value -> string, date: string, dateTime: string)
    requires !value.Obj? && key !in KeysOfAll(q) && key != "current_date" && key != "current_datetime"
    ensures key in TemplateContext(p + [(key, value)] + q, show, date, dateTime)
    ensures TemplateContext(p + [(key, value)] + q, show, date, dateTime)[key] == TemplateText(value, show)
  {
    var pre := p + [(key, value)];
    assert pre[..|pre| - 1] == p;
    LaterEntriesKeep(pre, q, show, key);
  }

  /** Each field of a dict entry that no later entry overwrites is stored under `key_field`. */
  lemma TemplateContextDictEntry(p: seq<(string, Value)>, key: string, value: Value, q: seq<(string, Value)>,
                                 sub: string, show: Value -> string, date: string, dateTime: string)
    requires value.Obj? && sub in value.fields && SubKey(key, sub) !in KeysOfAll(q)
    requires SubKey(key, sub) != "current_date" && SubKey(key, sub) != "current_datetime"
    ensures SubKey(key, sub) in TemplateContext(p + [(key, value)] + q, show, date, dateTime)
    ensures TemplateContext(p + [(key, value)] + q, show, date, dateTime)[SubKey(key, sub)]
         == TemplateText(value.fields[sub], show)
  {
    var pre := p + [(key, value)];
    assert pre[..|pre| - 1] == p;
    LaterEntriesKeep(pre, q, show, SubKey(key, sub));
  }
}
