/**
 * Token budgeting, the entry point of the ToR chunker and the stateful shell of
 * the chained prompt generator (services/token_manager.py).
 */
module TokenManager {
  import opened Wrappers
  import opened PyStr
  import opened JsonValue

  // ---------------------------------------------------------------------------
  // TokenLimits
  // ---------------------------------------------------------------------------

  const DeepseekContext: nat := 32000
  const SonnetContext: nat := 200000
  /** Context window of a provider the table does not know. */
  const DefaultContext: nat := 8000
  /** SAFETY_MARGIN is 0.75, written as the exact fraction 3/4. */
  const SafetyNumerator: nat := 3
  const SafetyDenominator: nat := 4
  const AvgCharsPerToken: nat := 4
  const MinChunkSize: nat := 500
  const MaxOverlap: nat := 200
  /** Largest prompt overhead charged against a DeepSeek window. */
  const DeepseekOverheadCap: int := 3000
  /** Smallest content budget ever reported. */
  const MinContentTokens: int := 1000

  function Max(a: int, b: int): int { if a >= b then a else b }
  function Min(a: int, b: int): int { if a <= b then a else b }

  // ---------------------------------------------------------------------------
  // estimate_tokens
  // ---------------------------------------------------------------------------

  /**
   * `int(max(words * 1.3, chars / 4))`, computed exactly: 13 * words div 10 is
   * the floor of words * 1.3 and chars div 4 the floor of chars / 4.
   */
  function EstimateTokens(text: string): (n: nat)
    ensures text == [] ==> n == 0
    ensures text != [] ==> n * 10 <= 13 * |Words(text)| || n * 4 <= |text|
    ensures text != [] ==> (n + 1) * 10 > 13 * |Words(text)| && (n + 1) * 4 > |text|
  {
    if text == [] then 0 else Max(13 * |Words(text)| / 10, |text| / AvgCharsPerToken)
  }

  /** The estimate never exceeds the number of characters. */
  lemma EstimateTokensAtMostLength(text: string)
    ensures EstimateTokens(text) <= |text|
  {
    if text != [] {
      var w := |Words(text)|;
      WordsCountBound(text);
      if |text| == 1 {
        assert w <= 1;
      } else {
        assert 13 * w <= 13 * (|text| + 1) / 2;
        assert 13 * w / 10 <= |text|;
      }
    }
  }

  // ---------------------------------------------------------------------------
  // get_max_content_tokens
  // ---------------------------------------------------------------------------

  /** The context window looked up by the lower-cased provider name. */
  function ContextWindow(provider: string): nat {
    var p := Lower(provider);
    if p == "deepseek" then DeepseekContext
    else if p == "sonnet" || p == "claude" || p == "anthropic" then SonnetContext
    else DefaultContext
  }

  /** Tokens left for ToR content once the prompt overhead is charged. */
  function GetMaxContentTokens(provider: string, promptOverhead: int): (r: int)
    ensures r >= MinContentTokens
    ensures Lower(provider) == "deepseek" ==> r == Max(24000 - Min(promptOverhead, 3000), 1000)
    ensures Lower(provider) in ["sonnet", "claude", "anthropic"] ==> r == Max(150000 - promptOverhead, 1000)
    ensures Lower(provider) !in ["deepseek", "sonnet", "claude", "anthropic"] ==>
      r == Max(6000 - promptOverhead, 1000)
    ensures promptOverhead <= 0 ==> r >= ContextWindow(provider) * 3 / 4
  {
    var available := ContextWindow(provider) * SafetyNumerator / SafetyDenominator;
    var overhead := if Lower(provider) == "deepseek" then Min(promptOverhead, DeepseekOverheadCap) else promptOverhead;
    Max(available - overhead, MinContentTokens)
  }

  /** A larger prompt overhead never leaves more room for content. */
  lemma MaxContentTokensAntitone(provider: string, o1: int, o2: int)
    requires o1 <= o2
    ensures GetMaxContentTokens(provider, o2) <= GetMaxContentTokens(provider, o1)
  {
  }

  // ---------------------------------------------------------------------------
  // intelligent_chunk_tor
  // ---------------------------------------------------------------------------

  /** A chunk dict; `content` and `tokens_estimated` may be missing. */
  datatype Chunk = Chunk(
    content: Option<string>,
    section: string,
    index: int,
    tokensEstimated: Option<int>,
    chunkId: string)

  /**
   * The splitting strategies and the post-processing pass, which the chunker
   * calls but which are not defined in the file, and the md5-based chunk id.
   * Each strategy takes the text, the token budget per chunk and the overlap.
   */
  datatype Strategies = Strategies(
    hierarchical: (string, int, int) -> seq<Chunk>,
    paragraph: (string, int, int) -> seq<Chunk>,
    character: (string, int, int) -> seq<Chunk>,
    postProcess: seq<Chunk> -> seq<Chunk>,
    chunkIdOf: string -> string)

  /** The chunk for a document that fits in one piece. */
  function WholeDocumentChunk(tor: string, chunkIdOf: string -> string): Chunk {
    Chunk(Some(Strip(tor)), "complete", 0, Some(EstimateTokens(tor)), chunkIdOf(tor))
  }

  /**
   * The fallback chain: the first strategy, in the order hierarchical,
   * paragraph, character, whose output is non-empty.
   */
  function FallbackChunks(tor: string, maxTokens: int, overlap: int, st: Strategies): (cs: seq<Chunk>)
    ensures st.hierarchical(tor, maxTokens, overlap) != [] ==> cs == st.hierarchical(tor, maxTokens, overlap)
    ensures st.hierarchical(tor, maxTokens, overlap) == [] && st.paragraph(tor, maxTokens, overlap) != [] ==>
      cs == st.paragraph(tor, maxTokens, overlap)
    ensures st.hierarchical(tor, maxTokens, overlap) == [] && st.paragraph(tor, maxTokens, overlap) == [] ==>
      cs == st.character(tor, maxTokens, overlap)
  {
    var h := st.hierarchical(tor, maxTokens, overlap);
    if h != [] then h
    else
      var p := st.paragraph(tor, maxTokens, overlap);
      if p != [] then p else st.character(tor, maxTokens, overlap)
  }

  /** `TokenManager.intelligent_chunk_tor`. */
  function IntelligentChunkTor(tor: string, maxTokens: int, overlap: int, st: Strategies): (r: seq<Chunk>)
    ensures IsBlank(tor) ==> r == []
    ensures !IsBlank(tor) && EstimateTokens(tor) <= maxTokens ==> r == [WholeDocumentChunk(tor, st.chunkIdOf)]
    ensures !IsBlank(tor) && EstimateTokens(tor) > maxTokens ==>
      r == st.postProcess(FallbackChunks(tor, maxTokens, overlap, st))
  {
    if tor == [] || Strip(tor) == [] then
      StripEmptyIffBlank(tor);
      []
    else
      StripEmptyIffBlank(tor);
      var estimated := EstimateTokens(tor);
      if estimated <= maxTokens then [WholeDocumentChunk(tor, st.chunkIdOf)]
      else st.postProcess(FallbackChunks(tor, maxTokens, overlap, st))
  }

  /**
   * A document that fits gives one chunk whose content is non-empty, carries
   * no surrounding whitespace and keeps every non-whitespace character of the
   * document, in order.
   */
  lemma WholeDocumentChunkContent(tor: string, maxTokens: int, overlap: int, st: Strategies)
    requires !IsBlank(tor) && EstimateTokens(tor) <= maxTokens
    ensures var r := IntelligentChunkTor(tor, maxTokens, overlap, st);
      |r| == 1 && r[0].content.Some? && r[0].content.value != [] &&
      !IsSpace(r[0].content.value[0]) && !IsSpace(r[0].content.value[|r[0].content.value| - 1]) &&
      NonSpace(r[0].content.value) == NonSpace(tor) &&
      r[0].tokensEstimated == Some(EstimateTokens(tor)) && r[0].index == 0
  {
    StripEmptyIffBlank(tor);
    StripKeepsNonSpace(tor);
  }

  // ---------------------------------------------------------------------------
  // EnhancedChainedPromptGenerator
  // ---------------------------------------------------------------------------

  /** What a processing path did: returned a result or raised an exception. */
  datatype PathOutcome = Returned(result: Value) | Raised(message: string)

  /** Sum of `tokens_estimated` over the chunks, a missing value counting as 0. */
  function SumTokens(chunks: seq<Chunk>): int {
    if chunks == [] then 0 else SumTokens(chunks[..|chunks| - 1]) + chunks[|chunks| - 1].tokensEstimated.GetOr(0)
  }

  /** The token total is additive over concatenation of chunk lists. */
  lemma {:induction false} SumTokensAppend(a: seq<Chunk>, b: seq<Chunk>)
    ensures SumTokens(a + b) == SumTokens(a) + SumTokens(b)
    decreases |b|
  {
    if b != [] {
      SumTokensAppend(a, b[..|b| - 1]);
      assert (a + b)[..|a + b| - 1] == a + b[..|b| - 1];
      assert (a + b)[|a + b| - 1] == b[|b| - 1];
    } else {
      assert a + b == a;
    }
  }

  /** With every estimate present and non-negative the total is non-negative. */
  lemma {:induction false} SumTokensNonNegative(chunks: seq<Chunk>)
    requires forall i :: 0 <= i < |chunks| ==> chunks[i].tokensEstimated.GetOr(0) >= 0
    ensures SumTokens(chunks) >= 0
    decreases |chunks|
  {
    if chunks != [] {
      SumTokensNonNegative(chunks[..|chunks| - 1]);
    }
  }

  /** A list of strings as a list value. */
  function StrList(xs: seq<string>): (v: Value)
    ensures v.Arr? && |v.items| == |xs| && forall i :: 0 <= i < |xs| ==> v.items[i] == Str(xs[i])
  {
    if xs == [] then Arr([]) else Arr([Str(xs[0])] + StrList(xs[1..]).items)
  }

  function NoChunksMessage(taskType: string): string {
    "No hay chunks disponibles para procesar (" + taskType + ")"
  }

  function CriticalErrorMessage(exceptionText: string): string {
    "Error cr\U{ED}tico en procesamiento: " + exceptionText
  }

  const NarrativeErrorPrefix := "Error generando narrativa: "
  const NarrativeErrorSuffix :=
    "\n\nNo se pudo completar la generaci\U{F3}n autom\U{E1}tica. Por favor revise la configuraci\U{F3}n y los t\U{E9}rminos de referencia."

  /**
   * `_get_error_result`: the narrative error text, or the error-shaped budget
   * dict carrying a snapshot of the processing statistics.
   */
  function ErrorResult(taskType: string, message: string, stats: Value, generatedAt: string): (r: Value)
    ensures taskType == "narrative" <==> r.Str?
    ensures r.Str? ==> StartsWith(r.s, NarrativeErrorPrefix + message) && EndsWith(r.s, NarrativeErrorSuffix)
    ensures r.Obj? ==>
      && r.fields.Keys == {"error", "currency", "items", "summary_by_category", "total", "assumptions",
                            "compliance_notes", "processing_stats", "generated_at", "error_type"}
      && r.fields["error"] == Str(message)
      && r.fields["currency"] == Str("USD")
      && r.fields["items"] == Arr([])
      && r.fields["summary_by_category"] == Obj(map[])
      && r.fields["total"] == Real(0.0)
      && r.fields["assumptions"] == Arr([Str("Error en generaci\U{F3}n: " + message)])
      && r.fields["compliance_notes"] == Arr([])
      && r.fields["processing_stats"] == stats
      && r.fields["generated_at"] == Str(generatedAt)
      && r.fields["error_type"] == Str("generation_failure")
  {
    if taskType == "narrative" then
      var text := NarrativeErrorPrefix + message + NarrativeErrorSuffix;
      assert text[..|NarrativeErrorPrefix + message|] == NarrativeErrorPrefix + message;
      assert text[|text| - |NarrativeErrorSuffix|..] == NarrativeErrorSuffix;
      Str(text)
    else
      Obj(map[
        "error" := Str(message),
        "currency" := Str("USD"),
        "items" := Arr([]),
        "summary_by_category" := Obj(map[]),
        "total" := Real(0.0),
        "assumptions" := Arr([Str("Error en generaci\U{F3}n: " + message)]),
        "compliance_notes" := Arr([]),
        "processing_stats" := stats,
        "generated_at" := Str(generatedAt),
        "error_type" := Str("generation_failure")])
  }

  /** The error message can be read back out of either shape of error result. */
  lemma ErrorResultRecoversMessage(taskType: string, message: string, stats: Value, generatedAt: string)
    ensures var r := ErrorResult(taskType, message, stats, generatedAt);
      if r.Str? then r.s[|NarrativeErrorPrefix|..|NarrativeErrorPrefix| + |message|] == message
      else Field(r, "error") == Str(message)
  {
    var r := ErrorResult(taskType, message, stats, generatedAt);
    if r.Str? {
      assert r.s[..|NarrativeErrorPrefix + message|] == NarrativeErrorPrefix + message;
      assert (NarrativeErrorPrefix + message)[|NarrativeErrorPrefix|..] == message;
    }
  }

  /**
   * The chained prompt generator. `processing_stats` is kept as four fields;
   * the academic system is represented by the ToR text it was built from.
   */
  class EnhancedChainedPromptGenerator {
    var maxTokensPerChunk: int
    var accumulatedContext: string
    var chunksProcessed: int
    var totalTokensProcessed: int
    var processingTime: real
    var errors: seq<string>
    var academicTorContent: Option<string>
    var realtimeStarted: bool

    constructor (maxTokens: int)
      ensures maxTokensPerChunk == maxTokens && accumulatedContext == []
      ensures chunksProcessed == 0 && totalTokensProcessed == 0 && processingTime == 0.0 && errors == []
      ensures academicTorContent == None && !realtimeStarted
    {
      maxTokensPerChunk := maxTokens;
      accumulatedContext := [];
      chunksProcessed := 0;
      totalTokensProcessed := 0;
      processingTime := 0.0;
      errors := [];
      academicTorContent := None;
      realtimeStarted := false;
    }

    /** `processing_stats` as the dict the error result embeds. */
    function StatsValue(): Value
      reads this
    {
      Obj(map[
        "chunks_processed" := Int(chunksProcessed),
        "total_tokens_processed" := Int(totalTokensProcessed),
        "processing_time" := Real(processingTime),
        "errors" := StrList(errors)])
    }

    /**
     * The `except` path of `process_tor_chunks` (and its empty-input path):
     * the message joins `processing_stats["errors"]` and the error result
     * embeds the stats as they then are.
     */
    method Fail(taskType: string, msg: string, generatedAt: string) returns (r: Value)
      modifies this
      ensures errors == old(errors) + [msg]
      ensures chunksProcessed == old(chunksProcessed) && totalTokensProcessed == old(totalTokensProcessed)
      ensures processingTime == old(processingTime)
      ensures maxTokensPerChunk == old(maxTokensPerChunk) && accumulatedContext == old(accumulatedContext)
      ensures academicTorContent == old(academicTorContent) && realtimeStarted == old(realtimeStarted)
      ensures r == ErrorResult(taskType, msg, StatsValue(), generatedAt)
    {
      errors := errors + [msg];
      r := ErrorResult(taskType, msg, StatsValue(), generatedAt);
    }

    /**
     * Builds the academic and real-time systems when their modules imported
     * and they are not built yet; the academic one reads the first chunk's text.
     */
    method InitSystems(firstContent: string, academicAvailable: bool, realtimeAvailable: bool)
      modifies this
      ensures academicTorContent ==
        (if academicAvailable && old(academicTorContent).None? then Some(firstContent) else old(academicTorContent))
      ensures realtimeStarted == (realtimeAvailable || old(realtimeStarted))
      ensures errors == old(errors) && chunksProcessed == old(chunksProcessed)
      ensures totalTokensProcessed == old(totalTokensProcessed) && processingTime == old(processingTime)
      ensures maxTokensPerChunk == old(maxTokensPerChunk) && accumulatedContext == old(accumulatedContext)
    {
      if academicAvailable && academicTorContent.None? {
        academicTorContent := Some(firstContent);
      }
      if realtimeAvailable && !realtimeStarted {
        realtimeStarted := true;
      }
    }

    /** The stats update after a path returned. */
    method RecordStats(chunks: seq<Chunk>, elapsed: real)
      modifies this
      ensures chunksProcessed == |chunks| && totalTokensProcessed == SumTokens(chunks) && processingTime == elapsed
      ensures errors == old(errors)
      ensures maxTokensPerChunk == old(maxTokensPerChunk) && accumulatedContext == old(accumulatedContext)
      ensures academicTorContent == old(academicTorContent) && realtimeStarted == old(realtimeStarted)
    {
      chunksProcessed := |chunks|;
      totalTokensProcessed := SumTokens(chunks);
      processingTime := elapsed;
    }

    /**
     * `process_tor_chunks`. The single-chunk and multi-chunk paths are the
     * parameters `single` and `multi`; `elapsed` is the measured processing
     * time. `academicAvailable` and `realtimeAvailable` are the module's
     * import flags. The progress callback reports twice inside the `try`:
     * `startFault` and `doneFault` are the exception texts it raises at the
     * first and at the second report, if it does.
     */
    method ProcessTorChunks(chunks: seq<Chunk>, taskType: string,
                            single: (Chunk, string) -> PathOutcome,
                            multi: (seq<Chunk>, string) -> PathOutcome,
                            academicAvailable: bool, realtimeAvailable: bool,
                            startFault: Option<string>, doneFault: Option<string>,
                            elapsed: real, generatedAt: string) returns (r: Value)
      modifies this
      ensures maxTokensPerChunk == old(maxTokensPerChunk) && accumulatedContext == old(accumulatedContext)
      ensures chunks == [] ==>
        && errors == old(errors) + [NoChunksMessage(taskType)]
        && chunksProcessed == old(chunksProcessed)
        && totalTokensProcessed == old(totalTokensProcessed)
        && processingTime == old(processingTime)
        && academicTorContent == old(academicTorContent) && realtimeStarted == old(realtimeStarted)
        && r == ErrorResult(taskType, NoChunksMessage(taskType), StatsValue(), generatedAt)
      ensures chunks != [] && startFault.Some? ==>
        && errors == old(errors) + [CriticalErrorMessage(startFault.value)]
        && chunksProcessed == old(chunksProcessed)
        && totalTokensProcessed == old(totalTokensProcessed)
        && processingTime == old(processingTime)
        && academicTorContent == old(academicTorContent) && realtimeStarted == old(realtimeStarted)
        && r == ErrorResult(taskType, CriticalErrorMessage(startFault.value), StatsValue(), generatedAt)
      ensures chunks != [] && startFault.None? ==>
        && academicTorContent == (if academicAvailable && old(academicTorContent).None?
                                  then Some(chunks[0].content.GetOr("")) else old(academicTorContent))
        && realtimeStarted == (realtimeAvailable || old(realtimeStarted))
      ensures chunks != [] && startFault.None? ==>
        var outcome := if |chunks| == 1 then single(chunks[0], taskType) else multi(chunks, taskType);
        match outcome
        case Returned(v) =>
          && chunksProcessed == |chunks|
          && totalTokensProcessed == SumTokens(chunks)
          && processingTime == elapsed
          && (doneFault.None? ==> r == v && errors == old(errors))
          && (doneFault.Some? ==>
                && errors == old(errors) + [CriticalErrorMessage(doneFault.value)]
                && r == ErrorResult(taskType, CriticalErrorMessage(doneFault.value), StatsValue(), generatedAt))
        case Raised(e) =>
          && errors == old(errors) + [CriticalErrorMessage(e)]
          && chunksProcessed == old(chunksProcessed)
          && totalTokensProcessed == old(totalTokensProcessed)
          && processingTime == old(processingTime)
          && r == ErrorResult(taskType, CriticalErrorMessage(e), StatsValue(), generatedAt)
    {
      if chunks == [] {
        r := Fail(taskType, NoChunksMessage(taskType), generatedAt);
        return;
      }
      if startFault.Some? {
        r := Fail(taskType, CriticalErrorMessage(startFault.value), generatedAt);
        return;
      }
      InitSystems(chunks[0].content.GetOr(""), academicAvailable, realtimeAvailable);
      var outcome;
      if |chunks| == 1 {
        outcome := single(chunks[0], taskType);
      } else {
        outcome := multi(chunks, taskType);
      }
      match outcome {
        case Returned(v) =>
          RecordStats(chunks, elapsed);
          if doneFault.Some? {
            r := Fail(taskType, CriticalErrorMessage(doneFault.value), generatedAt);
          } else {
            r := v;
          }
        case Raised(e) =>
          r := Fail(taskType, CriticalErrorMessage(e), generatedAt);
      }
    }
  }
}
