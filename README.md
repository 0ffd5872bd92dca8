# Proposal generator services — a Dafny model

This project models the deterministic core of a proposal-writing assistant for
development projects in Guatemala. The assistant reads a call for proposals
(the Terms of Reference, "ToR"), cuts it into chunks that fit a language
model's context window and asks DeepSeek for a narrative and Claude Sonnet for
a budget in JSON. It then builds the budget, a Gantt chart, academic references
and a context section. The model covers:

- **TokenManager** (`services/token_manager.py`): the token estimate, the
  per-provider content budget, the entry point of the ToR chunker with its
  fallback order, and the `process_tor_chunks` shell. That shell is a class
  whose processing statistics change in place. It also covers the error result.
  The topic detector `_detect_project_topic` (`services/token_manager.py:563-574`)
  is the same keyword test as the one in `services/academic_reference_system.py:302-311`,
  on the text it is given, so `AcademicReferences.DetectProjectTopic` models both.
- **LlmProviders** (`services/llm_providers.py`): the code-fence stripper, the
  scanner that recovers the first balanced JSON value from a model reply (a
  bracket stack with in-string and escape flags), and the error-shaping
  branches of both HTTP clients.
- **DocumentProcessor** (`services/document_processor.py`): document chunking,
  extracted-content validation, the five-pass text cleaner, the narrative
  section splitter, language detection, syllable counting, the
  missing-dependency list and the flattening of the template context.
- **BudgetSystem** (`services/enhanced_budget_system.py`): the line-item
  generators (personnel, equipment, travel, training) and the subtotal,
  indirect and total arithmetic with the donor standards. It also covers
  beneficiary parsing, the cost-effectiveness rating, the category breakdown,
  the monthly and quarterly timeline, the cash flow, and the donor and
  Guatemalan compliance checks.
- **GanttChart** (`services/gantt_chart_generator.py`): spreadsheet column
  letters (bijective base 26), month headers with year rollover, milestone
  columns, activity budgets, overall progress, project status and the
  classification of the timeline bar cells.
- **Wizard** (`ui/wizard.py`): `StateManager`, a nested dictionary addressed by
  dotted paths with create-on-write intermediates, three validators, and the
  snapshot and merge used to persist it. Also `ProgressManager`, a step counter.
- **AcademicReferences** (`services/academic_reference_system.py`): topic
  detection, selection of references through the topic mapping, the theory
  explanation lookup and the sorted, de-duplicated bibliography.
- **RealTimeUpdates** (`services/real_time_update_system.py`): the location
  tables and classifiers, the analysis of the current context, and the GDP and
  unemployment interpretations.

Shared modules:

- `Wrappers` holds `Option` and `Result`.
- `PyStr` holds the Python string built-ins the code relies on (`isspace`,
  `strip`, `split`, `lower`/`upper`/`title`, `str(int)`).
- `JsonValue` holds the JSON-like value used for Python dictionaries and lists.

Python exceptions become `Err` values that carry the exception's name. Money
and other floating-point quantities are exact `real`s. Wherever the source
mutates state in a loop (the statistics, the wizard's dictionary, the lists
built step by step), the model has a method with loop invariants; lists that
a function builds by a few straight-line appends, such as the two compliance
checks, are functions. Each method is proved equal to a specification function, and the
lemmas state the properties of that function.

## Model

| member | source | states |
|---|---|---|
| TokenManager.EstimateTokens | services/token_manager.py:51-64 | 0 for empty text; otherwise the largest integer not above max(1.3 × words, chars / 4), stated as two integer bounds |
| TokenManager.EstimateTokensAtMostLength | services/token_manager.py:51-64 | the estimate never exceeds the number of characters |
| TokenManager.GetMaxContentTokens | services/token_manager.py:66-83 | at least 1000. Per lowercased provider it is 75% of 32000 (deepseek, overhead capped at 3000), of 200000 (sonnet/claude/anthropic) or of 8000 (any other), minus the overhead |
| TokenManager.MaxContentTokensAntitone | services/token_manager.py:66-83 | a larger prompt overhead never yields a larger content budget |
| TokenManager.FallbackChunks | services/token_manager.py:107-116 | hierarchical chunks if non-empty, else paragraph chunks if non-empty, else character chunks |
| TokenManager.IntelligentChunkTor | services/token_manager.py:86-119 | blank input gives []. A document within the budget gives one whole-document chunk. Otherwise the post-processed fallback result |
| TokenManager.WholeDocumentChunkContent | services/token_manager.py:95-103 | the single chunk has index 0 and the estimate of the unstripped text. Its content is non-empty with no edge whitespace and keeps every non-space character of the ToR |
| TokenManager.SumTokensAppend | services/token_manager.py:245 | the token total of concatenated chunk lists is the sum of their totals |
| TokenManager.ErrorResult | services/token_manager.py:592-608 | "narrative" yields text that starts "Error generando narrativa: " + message. Any other task type yields the ten-key dict: the message under "error", items [], total 0.0, "generation_failure" |
| TokenManager.ErrorResultRecoversMessage | services/token_manager.py:592-608 | the message can be read back from either error shape |
| TokenManager.EnhancedChainedPromptGenerator.constructor | services/token_manager.py:132-147 | statistics start at zero with no errors, and no helper systems exist yet |
| TokenManager.EnhancedChainedPromptGenerator.ProcessTorChunks | services/token_manager.py:209-257 | No chunks: one error is appended, the counters stay unchanged and the error shape is returned. A progress report that raises at the start appends the critical message before any system is built. Otherwise each system is built when its module imported and it is not built yet; one chunk takes the single path, more the multi path. On success: chunk count, token sum (missing = 0) and elapsed time are set; then the result is returned with errors kept, or, when the completion report raises, one critical message is appended and the error shape carries the updated stats. A path that raises appends one message and returns the error shape |
| TokenManager.EnhancedChainedPromptGenerator.Fail | services/token_manager.py:213-216 | the message joins the error list, nothing else changes, and the error shape embeds the stats with it |
| TokenManager.EnhancedChainedPromptGenerator.InitSystems | services/token_manager.py:224-228 | the academic system is built from the first chunk's text only when its module imported and none exists; likewise the real-time system; nothing else changes |
| TokenManager.EnhancedChainedPromptGenerator.RecordStats | services/token_manager.py:242-247 | the stats hold the chunk count, the token sum and the elapsed time; the error list is kept |
| AcademicReferences.DetectProjectTopic | services/token_manager.py:563-574 | the topic is one of the four mapped topics; the same code as services/academic_reference_system.py:302-311, whose priority order DetectProjectTopicSpec states |
| AcademicReferences.DetectProjectTopicSpec | services/academic_reference_system.py:302-311 | the result does not depend on letter case. Governance words win; economic iff no governance word and an economic word; climate and community likewise down the priority order |
| AcademicReferences.DetectedTopicIsMapped | services/academic_reference_system.py:259-260 | every detected topic has an entry in the mapping, so the community fallback is never needed |
| AcademicReferences.PresentSpec | services/academic_reference_system.py:262-284 | a reference is selected iff some mapped name is in the catalogue and files it. When all names are present, the list is the catalogue entries in mapping order |
| AcademicReferences.PresentSectors | services/academic_reference_system.py:293-298 | every sector entry comes from the catalogue with its own data |
| AcademicReferences.AppendPresent | services/academic_reference_system.py:262-284 | the filtering loop computes the selection function |
| AcademicReferences.AppendSectors | services/academic_reference_system.py:293-298 | the sector loop computes the sector selection |
| AcademicReferences.GenerateContextualizedReferences | services/academic_reference_system.py:217-300 | KeyError iff one of the four fixed Guatemala sources is missing. Otherwise every list is the present names of the detected topic's mapping, whatever topic_area says. Guatemala context is exactly the four fixed entries and data sources are empty |
| AcademicReferences.ReplaceChar | services/academic_reference_system.py:397 | same length; exactly the occurrences of one character are replaced |
| AcademicReferences.ExplanationKey | services/academic_reference_system.py:397 | the lookup key keeps the length of the theory name |
| AcademicReferences.TheoryExplanation | services/academic_reference_system.py:390-397 | AttributeError when the theory is not a dict or its "theory" field is not text. Otherwise the default sentence or one of the filed explanations |
| AcademicReferences.TheoryExplanationMissesShipped | services/academic_reference_system.py:390-397 | each shipped theory, looked up by its "theory" field as written, gets the default sentence |
| AcademicReferences.TheoryExplanationByName | services/academic_reference_system.py:390-397 | the lookup by database key returns the default or a filed explanation |
| AcademicReferences.TheoryExplanationByNameShipped | services/academic_reference_system.py:36-58 | looking up by database key finds each shipped theory's own explanation, never the default |
| AcademicReferences.StrLessTotal | services/academic_reference_system.py:448 | Python's string order is total on distinct strings (irreflexivity and transitivity are the neighbouring lemmas) |
| AcademicReferences.SortCitations | services/academic_reference_system.py:448 | `sorted(set)` is strictly increasing and holds exactly the members of the set |
| AcademicReferences.IncreasingUnique | services/academic_reference_system.py:448 | two strictly increasing lists with the same members are equal, so the sorted bibliography order is unique |
| AcademicReferences.GenerateBibliography | services/academic_reference_system.py:432-451 | the text is the header followed by "• c\n\n" for each collected citation, once each, in increasing order. references_used is ignored |
| RealTimeUpdates.GuatemalaCoordinatesSpec | services/real_time_update_system.py:295-308 | never None: a known location gets its table entry, any other the capital's coordinates, and all lie inside Guatemala's bounding box |
| RealTimeUpdates.ClimateRisksSpec | services/real_time_update_system.py:310-321 | three distinct hazards, each rated on the risk scale; unknown locations get the fixed default |
| RealTimeUpdates.Classify | services/real_time_update_system.py:323-354 | the level is high, medium or low |
| RealTimeUpdates.ClassifySpec | services/real_time_update_system.py:323-354 | high iff listed high; medium iff not high and listed medium; low otherwise |
| RealTimeUpdates.ClassifierListsDisjoint | services/real_time_update_system.py:323-354 | for the three shipped classifiers, medium iff on the medium list |
| RealTimeUpdates.HighRisksSpec | services/real_time_update_system.py:387-390 | a hazard is a risk factor iff some entry rates it "high" or "very_high" |
| RealTimeUpdates.AssessedRiskFactors | services/real_time_update_system.py:310-321 | an unknown location has no high risks; Chiquimula has drought and water scarcity, in that order |
| RealTimeUpdates.CollectHighRisks | services/real_time_update_system.py:387-390 | the loop computes the high-risk filter in dict order |
| RealTimeUpdates.AnalyzeCurrentContext | services/real_time_update_system.py:356-405 | outlook, social challenge, risk factors, environment text, implications and opportunities are each determined by the numeric indicators. Non-numbers are ignored |
| RealTimeUpdates.ImplicationsSpec | services/real_time_update_system.py:369-403 | each implication appears iff its own condition holds: GDP < 2, literacy < 80, a high climate risk, rate > 8, rate < 7.5. A rate in [7.5, 8] adds none and at most four appear |
| RealTimeUpdates.ModerateGrowthNeutral | services/real_time_update_system.py:369-376 | GDP growth in [2, 4] adds neither an implication nor an opportunity |
| RealTimeUpdates.InterpretGdpGrowthSpec | services/real_time_update_system.py:539-550 | the interpretation is monotone in growth; the two lowest texts iff below 2; the top text iff at least 4 |
| RealTimeUpdates.InterpretUnemploymentSpec | services/real_time_update_system.py:552-561 | monotone in unemployment; 10 is still moderate and 5 still low (strict thresholds) |
| LlmProviders.LeadingFenceEndSpec | services/llm_providers.py:117 | the cut is the longest prefix matching whitespace, "```", optional "json" in any case, whitespace, newline |
| LlmProviders.TrailingFenceStartSpec | services/llm_providers.py:118 | the cut is the earliest suffix matching newline, whitespace, "```", whitespace to the end |
| LlmProviders.StripCodeFencesFenced | services/llm_providers.py:112-119 | a reply fenced as ```json … ``` is reduced to the stripped body |
| LlmProviders.StripCodeFencesNoFence | services/llm_providers.py:112-119 | text without backticks is only stripped |
| LlmProviders.ScanFromResult | services/llm_providers.py:136-166 | a scan that succeeds ends at a closer that pairs with its opener, and the candidate parses |
| LlmProviders.ScanFromBalanced | services/llm_providers.py:136-166 | the scan from s returns e exactly when s holds an opener and t[s..e+1] is balanced (every closer outside string literals, escapes honoured, matches the innermost open bracket, and the brackets first all close at e) and parses |
| LlmProviders.ScanMatchesLex | services/llm_providers.py:140-165 | part way through, the scan agrees with the independent bracket-and-string reading of the text consumed so far |
| LlmProviders.ScanSkipsStringBody | services/llm_providers.py:142-148 | inside a string, characters other than quote and backslash leave the scan state alone, so brackets there do not touch the stack |
| LlmProviders.ScanEmbedded | services/llm_providers.py:136-166 | surrounding text does not change where a candidate's scan ends |
| LlmProviders.FirstJsonFrom | services/llm_providers.py:135-166 | the chosen start is the first one whose scan succeeds; none exists when it returns nothing |
| LlmProviders.ExtractFirstJsonSpec | services/llm_providers.py:121-167 | Stripped text that parses is returned unchanged; any result parses. ValueError iff neither the whole text nor any start works. Otherwise the result is text[s..e] for the first working start s, with matching brackets |
| LlmProviders.ExtractFirstJsonBalanced | services/llm_providers.py:121-167 | without reference to the scanner: stripped text that parses is returned; otherwise the result is the balanced value that parses with the leftmost start, and ValueError is raised exactly when the text has no such value |
| LlmProviders.ExtractAfterProse | services/llm_providers.py:121-167 | prose without brackets before a balanced parseable value is skipped and the value is returned |
| LlmProviders.ScanCandidate | services/llm_providers.py:136-166 | the inner loop with its stack and flags computes the scan function |
| LlmProviders.ExtractFirstJsonScan | services/llm_providers.py:121-167 | the nested loops compute the extraction function |
| LlmProviders.BudgetErrorShape | services/llm_providers.py:171-184 | an error reply is the empty budget (USD, [], {}, 0.0, [], []) plus the message under "error" |
| LlmProviders.RStripSlash | services/llm_providers.py:108 | the base URL loses trailing slashes only |
| LlmProviders.SonnetParseShape | services/llm_providers.py:231-243 | a 200 reply yields either a decoded JSON value or the empty budget with an error |
| LlmProviders.GenerateJsonShape | services/llm_providers.py:170-250 | every outcome of generate_json is the empty budget with an error or a value some JSON text decodes to |
| LlmProviders.GenerateJsonNoKey | services/llm_providers.py:180-184 | without a key the result is the error budget and does not depend on the transport (no request) |
| LlmProviders.GenerateJsonFencedReply | services/llm_providers.py:230-240 | a 200 reply whose single text block is a fenced JSON body yields that body decoded |
| LlmProviders.DeepSeekFailuresStartWithError | services/llm_providers.py:35-85 | every failure branch returns content starting "Error" and a raw dict with an "error" entry |
| LlmProviders.DeepSeekNoKey | services/llm_providers.py:36-40 | without a key the result does not depend on the transport and its raw error is "missing_api_key" |
| LlmProviders.DeepSeekUnreadable | services/llm_providers.py:60-85 | a 200 reply without message content fails: as a connection error exactly when the body does not parse (`resp.json()` raises a RequestException), as an unexpected error otherwise, with the exception text as the raw error |
| LlmProviders.DeepSeekApiError | services/llm_providers.py:65-68 | any other status reports "Error API DeepSeek: " with the status, and a raw dict of the body and the status code |
| DocumentProcessor.ChunkDocument | services/document_processor.py:163-181 | no chunks iff the content is empty or starts with "Error". Otherwise total length is len(content) and the counts are the list lengths |
| DocumentProcessor.ChunkDocumentSpec | services/document_processor.py:170-173 | sections and paragraphs are non-empty and stripped, and together keep every non-space character of the content in order |
| DocumentProcessor.ValidateExtractedContentSpec | services/document_processor.py:419-437 | valid iff not blank, at least 50 characters once stripped, and 10 × (alphanumeric or space) ≥ 3 × length |
| DocumentProcessor.PlainTextIsValid | services/document_processor.py:426-437 | text of only letters, digits and spaces passes whenever it is long enough |
| DocumentProcessor.SquashBlanksSpec | services/document_processor.py:446 | no tab and no two adjacent spaces remain, and non-space characters are kept |
| DocumentProcessor.FormFeedToNewline | services/document_processor.py:449 | exactly the form feeds become newlines |
| DocumentProcessor.DropArtifacts | services/document_processor.py:450 | no control or \x7f-\xff character remains, and nothing new appears |
| DocumentProcessor.JoinBrokenSentencesChars | services/document_processor.py:453 | joining broken sentences introduces no character except a space |
| DocumentProcessor.CleanExtractedTextSpec | services/document_processor.py:440-455 | the cleaned text has no tab, no artifact character and no edge whitespace. Its non-space characters are the input's with the artifacts removed |
| DocumentProcessor.SplitNarrativeSections | services/document_processor.py:617-653 | the accumulating loop computes the section-splitting function |
| DocumentProcessor.NarrativeSectionsSpec | services/document_processor.py:629-653 | the titles are exactly the header lines in order, every section after the first has a title, and none is both untitled and empty |
| DocumentProcessor.NarrativeSectionsGroups | services/document_processor.py:629-653 | cut the lines at the header lines: each group that has a title or visible text gives one section, in order, and its body is the group's lines, each stripped and followed by a newline (a blank line a newline alone), stripped as a whole |
| DocumentProcessor.GroupLinesShape | services/document_processor.py:631-647 | the groups hold every non-header line exactly once and in order; there is one group per header plus a leading untitled one |
| DocumentProcessor.SharpSHeaderLine | services/document_processor.py:638 | capitals and spaces around a ß form a header, because the pattern is tried on the upper-cased line, where ß is "SS" |
| DocumentProcessor.IndicatorCountsBounded | services/document_processor.py:1063-1069 | the indicator lists are disjoint, so the two counts together never exceed the number of words |
| DocumentProcessor.SampleIgnoresTail | services/document_processor.py:1066 | words beyond the first 200 never change the detected language |
| DocumentProcessor.AllSpanishIsSpanish | services/document_processor.py:1060-1076 | text made only of Spanish indicator words is detected as Spanish |
| DocumentProcessor.CountSyllables | services/document_processor.py:1092-1110 | the loop with the previous-vowel flag computes the run-count function and returns at least 1 |
| DocumentProcessor.SyllablesBound | services/document_processor.py:1092-1110 | at least 1 and at most about half the word length |
| DocumentProcessor.MissingIndices | services/document_processor.py:145-162 | the unavailable dependencies, strictly increasing in the fixed order |
| DocumentProcessor.MissingDependenciesSpec | services/document_processor.py:145-162 | one install command per unavailable dependency, in the order pypdf, python-docx, pdfminer, docxtpl, openpyxl |
| DocumentProcessor.FlattenDict | services/document_processor.py:532-536 | a dict value gives one key "key_sub" per entry, holding its text ("" for None) |
| DocumentProcessor.PrepareTemplateContext | services/document_processor.py:522-544 | the loop computes the template-context function |
| DocumentProcessor.TemplateContextKeys | services/document_processor.py:522-544 | the keys are the flattened keys plus current_date and current_datetime, which hold the given dates |
| DocumentProcessor.TemplateContextPlainEntry | services/document_processor.py:528-531 | a plain value not overwritten later appears as its text |
| DocumentProcessor.TemplateContextDictEntry | services/document_processor.py:532-536 | a dict entry not overwritten later appears under its flattened key |
| BudgetSystem.StandardsRateBounds | services/enhanced_budget_system.py:14-48 | every donor's indirect rate lies in [7%, 10%]; USAID 10%, GIZ 7% |
| BudgetSystem.UnknownDonorIsBid | services/enhanced_budget_system.py:149-150 | an absent or unknown donor gets the BID standards (8%) |
| BudgetSystem.BudgetTotalsSpec | services/enhanced_budget_system.py:148-154 | direct costs are the item sum. The total is the sum × (1 + rate), between 1.07 and 1.10 times the sum; for an unknown donor exactly 1.08 |
| BudgetSystem.BudgetTotalsAppend | services/enhanced_budget_system.py:148-154 | totals add up over concatenated item lists |
| BudgetSystem.PersonnelItemsIdentity | services/enhanced_budget_system.py:279-306 | at 100% time, base salary + benefits is the total cost and quantity × unit cost is the total |
| BudgetSystem.GeneratePersonnelBudget | services/enhanced_budget_system.py:244-308 | the loop yields the three core positions' items, all consistent |
| BudgetSystem.EquipmentItems | services/enhanced_budget_system.py:438-450 | each total is unit cost × quantity × project share, and quantity × unit cost equals it |
| BudgetSystem.EquipmentWithinPrice | services/enhanced_budget_system.py:438-450 | with a share in [0, 1] an item never costs more than its list price × quantity |
| BudgetSystem.GenerateEquipmentBudget | services/enhanced_budget_system.py:393-462 | the loop yields the four equipment items, all consistent |
| BudgetSystem.ProjectGeographyCount | services/enhanced_budget_system.py:788-801 | national coverage gives 4 places, municipal 1 (the municipality when given), any other 2 |
| BudgetSystem.TravelItemsAmount | services/enhanced_budget_system.py:507-557 | the travel lines add up to the per-component cost of days, lodging and kilometres |
| BudgetSystem.GenerateTravelBudget | services/enhanced_budget_system.py:464-559 | the loop yields nine consistent travel lines over the three components |
| BudgetSystem.SupervisionDays | services/enhanced_budget_system.py:474-484 | supervision is 2 days and 300 km per location per month |
| BudgetSystem.TrainingItems | services/enhanced_budget_system.py:602-673 | four consistent lines per event, all under activity A2.1 |
| BudgetSystem.GenerateTrainingBudget | services/enhanced_budget_system.py:561-675 | the loop yields the twelve training lines of the three events |
| BudgetSystem.RemoveCommas | services/enhanced_budget_system.py:360 | no comma remains and nothing is added |
| BudgetSystem.ParseBeneficiariesNoDigits | services/enhanced_budget_system.py:357-361 | text without digits parses as 0 |
| BudgetSystem.ParseBeneficiariesReadsNumber | services/enhanced_budget_system.py:357-361 | the first number in the text, commas removed, is read back exactly |
| BudgetSystem.AssessCostEffectivenessSpec | services/enhanced_budget_system.py:981-998 | "No determinado" iff no beneficiaries; "Excelente" iff at most 200 per head; "Requiere justificación" iff above 1000 |
| BudgetSystem.AssessCostEffectivenessMonotone | services/enhanced_budget_system.py:981-998 | a larger budget never gets a better rating |
| BudgetSystem.CostPerBeneficiarySpec | services/enhanced_budget_system.py:346-355 | cost per direct beneficiary × max(direct, 1) is the total; "Excelente" iff beneficiaries exist and that cost ≤ 200 |
| BudgetSystem.KeyPartition | services/enhanced_budget_system.py:803-830 | summing per key over distinct keys covering every item gives the overall sum |
| BudgetSystem.TallyCategories | services/enhanced_budget_system.py:807-823 | the loop leaves each category's total, count and subcategory sums equal to those of its items |
| BudgetSystem.SetPercentages | services/enhanced_budget_system.py:826-828 | each category's percentage becomes its share of the total and nothing else changes |
| BudgetSystem.GenerateCategoryBreakdown | services/enhanced_budget_system.py:803-830 | ZeroDivisionError iff there are items and they sum to 0. Otherwise each category is tallied from its items and carries its share of the total |
| BudgetSystem.TalliedSums | services/enhanced_budget_system.py:803-830 | category totals add up to the budget and item counts to the number of items |
| BudgetSystem.SubcategoriesSumToCategory | services/enhanced_budget_system.py:820-823 | subcategory amounts (missing = "General") add up to the category total |
| BudgetSystem.CategoryPercentagesSumTo100 | services/enhanced_budget_system.py:826-828 | the percentages add up to 100 |
| BudgetSystem.FindActivity | services/enhanced_budget_system.py:846 | the first activity with the code, or none has it |
| BudgetSystem.AddOverSpan | services/enhanced_budget_system.py:853-856 | months start..end within the duration get the share. KeyError iff the span starts before month 1 and is not empty |
| BudgetSystem.GenerateMonthlyDistribution | services/enhanced_budget_system.py:832-857 | fails iff some item faults (first fault wins: division by a zero duration or span, KeyError). Otherwise month m holds the contributions of all items |
| BudgetSystem.ItemSpreadUnmatched | services/enhanced_budget_system.py:845-847 | an item whose activity code matches nothing contributes nothing |
| BudgetSystem.ItemSpreadWhole | services/enhanced_budget_system.py:838-856 | an item inside the timeline contributes its whole cost over all months if it is placed, else nothing |
| BudgetSystem.TimelineConservesBudget | services/enhanced_budget_system.py:832-857 | the months add up to the placed items' cost, and to the whole budget when every item is placed |
| BudgetSystem.QuarterlyBreakdown | services/enhanced_budget_system.py:858-864 | one quarter per started three months, each the sum of its (at most three) months |
| BudgetSystem.QuartersSum | services/enhanced_budget_system.py:858-864 | the quarters add up to the months |
| BudgetSystem.CashFlowProjection | services/enhanced_budget_system.py:872-886 | ZeroDivisionError iff there are months and they sum to 0. Otherwise each month carries its expense, the running sum and that sum's share of the total |
| BudgetSystem.CashFlowCompletes | services/enhanced_budget_system.py:872-886 | the last cumulative expense is the total and its execution is 100% |
| BudgetSystem.CashFlowMonotone | services/enhanced_budget_system.py:878-884 | with non-negative months the cumulative expense never decreases |
| BudgetSystem.DonorComplianceSpec | services/enhanced_budget_system.py:888-916 | the rate is administrative ÷ direct costs (0 when direct is not positive). Compliant iff within the limit and no required category is missing |
| BudgetSystem.NoAdministrativeNoIndirect | services/enhanced_budget_system.py:893-896 | without administrative items the rate is 0 and compliance depends only on the required categories |
| BudgetSystem.PersonnelListsLaborCode | services/enhanced_budget_system.py:923-930 | a personnel item puts the labour code among the Guatemalan regulations |
| BudgetSystem.EquipmentListsVatLaw | services/enhanced_budget_system.py:933-940 | an equipment item puts the VAT law among them |
| GanttChart.ColumnName | services/gantt_chart_generator.py:148-155 | non-empty iff n ≥ 1, and made of letters A-Z |
| GanttChart.GetColumnLetter | services/gantt_chart_generator.py:148-155 | the while loop computes the bijective base-26 numeral |
| GanttChart.ColumnValueOfName | services/gantt_chart_generator.py:148-155 | reading a column name back gives the number (round trip) |
| GanttChart.ColumnNameOfValue | services/gantt_chart_generator.py:148-155 | every string over A-Z is the name of its value (the other round trip) |
| GanttChart.ColumnNameInjective | services/gantt_chart_generator.py:148-155 | distinct numbers get distinct names |
| GanttChart.ColumnNameExamples | services/gantt_chart_generator.py:148-155 | 1→A, 26→Z, 27→AA, 702→ZZ, 703→AAA |
| GanttChart.MilestoneColumnSpec | services/gantt_chart_generator.py:299-301 | month m's column is number start + m − 1; distinct months get distinct columns |
| GanttChart.MonthAtClosedForm | services/gantt_chart_generator.py:167-171 | i months after (y, m) is year y + (m − 1 + i) div 12, month (m − 1 + i) mod 12 + 1 |
| GanttChart.MonthAtYearMonotone | services/gantt_chart_generator.py:167-171 | the year never goes back |
| GanttChart.GenerateMonthHeaders | services/gantt_chart_generator.py:157-173 | ValueError iff some move of the walk, which keeps the start's day of the month, reaches year 10000 or a month too short for that day. Otherwise exactly duration headers (none for a non-positive duration), header i being month i after the start |
| GanttChart.MovesOkShortDay | services/gantt_chart_generator.py:168-171 | for a day every month has (at most 28) the walk fails exactly when its last month falls after 9999 |
| GanttChart.ThirtyFirstFailsWithinTwoMonths | services/gantt_chart_generator.py:168-171 | a start on the 31st fails by the second move whatever the month |
| GanttChart.JanuaryThirtyFirstFails | services/gantt_chart_generator.py:170-171 | 31 January fails on its first move, to February |
| GanttChart.MonthHeaderYear | services/gantt_chart_generator.py:163-165 | a header is the month abbreviation, newline, apostrophe and the two-digit year |
| GanttChart.ActivityLines | services/gantt_chart_generator.py:182-185 | only lines with the activity's code are kept |
| GanttChart.ActivityBudgetSplit | services/gantt_chart_generator.py:180-186 | the activity's budget plus all other lines is the whole budget (missing cost = 0) |
| GanttChart.ActivityBudgetCounts | services/gantt_chart_generator.py:180-186 | a line with the code adds its cost |
| GanttChart.ActivityBudgetIgnoresOthers | services/gantt_chart_generator.py:180-186 | a line with another code adds nothing |
| GanttChart.OverallProgressSpec | services/gantt_chart_generator.py:326-332 | the mean times the number of activities is the progress sum (missing = 0), within [0, 100] when each is |
| GanttChart.StatusForSpec | services/gantt_chart_generator.py:334-345 | status is monotone in progress; Completado iff ≥ 100; Inicio iff < 25 (also for no activities) |
| GanttChart.MonthProgress | services/gantt_chart_generator.py:201-203 | the per-month progress is clamped to [0, 1] |
| GanttChart.AddTimelineBar | services/gantt_chart_generator.py:188-227 | the loop yields one cell per month of the chart, each the classified bar cell |
| GanttChart.BarCellPainted | services/gantt_chart_generator.py:199-227 | painted iff start ≤ month ≤ end; critical fill iff on the critical path |
| GanttChart.BarCellMonotone | services/gantt_chart_generator.py:203-220 | later months are never further along than earlier ones |
| GanttChart.BarCellEnds | services/gantt_chart_generator.py:203-220 | 100% progress paints every month completed, 0% every month planned |
| Wizard.GetResolves | ui/wizard.py:43-51 | get yields the stored value, the default when a step finds None, AttributeError when a step lands on a non-dict, and continues into the default when a key is missing |
| Wizard.SetInOkIff | ui/wizard.py:53-59 | set succeeds iff every proper prefix of the path is missing or holds a dict |
| Wizard.SetThenGet | ui/wizard.py:43-60 | after a successful set, the path resolves to the value, and get returns it when it is not None |
| Wizard.SetLeavesOthers | ui/wizard.py:53-59 | set changes no path that diverges from its own |
| Wizard.StateManager.constructor | ui/wizard.py:23-41 | the initial state, merged with the saved snapshot when there is one |
| Wizard.StateManager.Get | ui/wizard.py:43-51 | the loop computes the dotted-path lookup |
| Wizard.StateManager.Set | ui/wizard.py:53-60 | on success the state is the updated map and the saved snapshot is the new state. On error both are unchanged |
| Wizard.StateManager.Update | ui/wizard.py:62-65 | applies set to each entry in order, stopping at the first error |
| Wizard.ApplyUpdatesAppend | ui/wizard.py:62-65 | updating with a + b is updating with a and then b, unless a fails |
| Wizard.ProjectValidIff | ui/wizard.py:67-88 | AttributeError iff a required field is not text. No errors iff all four fields are filled and the duration is digits |
| Wizard.BlankErrorsUnfold | ui/wizard.py:79-81 | one error per blank required field, in the order title, country, donor, duration |
| Wizard.WhitespaceDurationTwoErrors | ui/wizard.py:79-86 | a whitespace-only duration yields both the required and the numeric error |
| Wizard.SuperscriptDurationValid | ui/wizard.py:83-86 | a duration written with a superscript digit ("1²") passes, as `str.isdigit` accepts it |
| Wizard.RequiredFieldErrors | ui/wizard.py:72-81 | the required-field loop fails exactly when the model of the loop raises, and otherwise yields one "is required" message per blank field, in field order |
| Wizard.StateManager.ValidateProject | ui/wizard.py:67-88 | the errors are those of the project, and the flag is true iff there are none |
| Wizard.StateManager.ValidateTor | ui/wizard.py:90-103 | one error per falsy path, content or chunks, each iff its field is falsy; the flag iff none |
| Wizard.GetApiStatus | ui/wizard.py:109-112 | "api_status.x" fails iff api_status is a non-dict, else reads the status |
| Wizard.StateManager.ValidateApis | ui/wizard.py:105-115 | one error per falsy API status, each iff falsy; the flag iff none |
| Wizard.Snapshot | ui/wizard.py:124-125 | the state without tor_content, every other entry kept |
| Wizard.ReloadSnapshot | ui/wizard.py:124-145 | merging a state's own snapshot back leaves it unchanged |
| Wizard.RestoreAfterRestart | ui/wizard.py:132-145 | after a restart tor_content keeps its initial value. Other plain entries are restored, and dict entries regain every saved key |
| Wizard.StateManager.LoadState | ui/wizard.py:132-148 | a saved dict is merged key by key (dict into dict, else replaced) |
| Wizard.ProgressPercentFloor | ui/wizard.py:163 | the progress is floor(current × 100 / total), 0 with no steps |
| Wizard.ProgressPercentMonotone | ui/wizard.py:163 | more steps done never lowers the progress |
| Wizard.ProgressPercentFull | ui/wizard.py:163 | 100 or more iff every step is done |
| Wizard.StepLabelSpec | ui/wizard.py:166-171 | the caption is never empty: the given text, else the step's name, else "Paso N" |
| Wizard.ProgressManager.constructor | ui/wizard.py:152-155 | no steps and step 0 |
| Wizard.ProgressManager.SetSteps | ui/wizard.py:157-159 | the steps are replaced and the counter resets to 0 |
| Wizard.ProgressManager.Update | ui/wizard.py:161-164 | reports the given progress, or the computed percentage when none is given |
| Wizard.ProgressManager.NextStep | ui/wizard.py:166-171 | the counter goes up by one and the report is its percentage and caption |

## Left out

- Python's Unicode tables for `isalnum`, `isdigit`, `lower`, `upper`, `title` and the regular-expression class `\d` are modelled on ASCII plus Latin-1 (with ß upper-casing to "SS" and title-casing to "Ss", and ª and º cased); characters above U+00FF are treated as uncased, non-digit and non-alphanumeric. `isspace` is exact.
- LlmProviders.DeepSeekGenerate: a 200 body that does not parse is a connection error, as with requests 2.27 and later, where `resp.json()` raises a JSONDecodeError that is a RequestException. Older requests raise a plain ValueError there, which the source reports as "Error inesperado".
- Wizard.ProjectValidIff: `str.isdigit` is modelled on Latin-1 only (ASCII digits and ¹²³), so a duration in digits of another script (Arabic-Indic, fullwidth and the like), which Python accepts, is reported here as not a number.
- Wizard.StateManager.ValidateProject: the same Latin-1 limit on `str.isdigit` as for ProjectValidIff.
- Floating point is exact `real` arithmetic, so rounding, NaN and infinities are not modelled.
- Wizard.ProgressManager.NextStep: the source computes `int(current / len * 100)` in floating point. That can be one below the exact floor the model uses (for example 29 of 100 steps gives 28). The model states the exact floor.
- Wizard.ProgressManager.Update: the same floating-point `int(current / len * 100)` when no progress is given; the model states the exact floor.
- Wizard.ProgressPercent: the exact floor shared by NextStep and Update; the float result of the source can be one below it.
- Month abbreviations are those of the C locale; other locales are not modelled.
- Files, the clock and the network are parameters: the saved wizard state, `datetime.now()`, the progress callback (its reports are outputs) and the HTTP calls (outcome datatypes).
- `json.loads` is a decoder parameter, and `hashlib.md5` chunk ids are a parameter.
- The chunking strategies and the single- and multi-chunk processing paths are not defined in `services/token_manager.py` and are parameters; overlap, retries and back-off are not modelled.
- TokenManager.EnhancedChainedPromptGenerator.ProcessTorChunks: the single- and multi-chunk paths are methods of the same object in the source and could append to `processing_stats["errors"]`; the model assumes they leave `processing_stats` alone, so "errors unchanged on success" holds under that assumption.
- TokenManager.EnhancedChainedPromptGenerator.ProcessTorChunks: the academic and real-time systems are recorded as the ToR content and a flag, not as objects.
- TokenManager.EnhancedChainedPromptGenerator.ProcessTorChunks: the error dict embeds `processing_stats` itself, so later updates of the stats show through it; the model embeds the stats as they are when the error is returned.
- TokenManager.EnhancedChainedPromptGenerator.ProcessTorChunks: exceptions raised by the constructors of the academic and real-time systems, and by `chunks[0].get` on a chunk that is not a dict, are not modelled (chunks are records here).
- BudgetSystem: `generate_comprehensive_budget` is not modelled end to end, because `_generate_services_budget` reads an `average` key that two of its cost entries lack and so fails at run time. Only its totals are modelled.
- BudgetSystem: activity breakdown, Gantt data, KPIs, the efficiency indicators, the geographic breakdown and the risk analysis are not modelled. The last three are not defined in the shown file.
- Wizard: the nested dictionary is a value, so aliasing between the in-memory state and the saved copy is not modelled.
- AcademicReferences.CollectedCitations: only non-empty string citations are collected; a truthy citation of another type is not modelled.
- RealTimeUpdates.AnalyzeCurrentContext: the indicators are given flattened, so the AttributeError raised when an intermediate level is not a dict is not modelled.
- AcademicReferences.GenerateContextualizedReferences: `topic_area` and `geographic_focus` are accepted but unused, as in the source.
- The Tk GUI, threads and the async indicator fetchers, the PDF, DOCX and XLSX readers and writers, and the readability ratios are not modelled.
- Static content (prompt texts, the organisation profile, the reference and cost databases) is data. The model takes it as parameters or constants.

## Findings

| source | as written | input that shows it | evidently intended | confidence | as-written member | corrected member |
|---|---|---|---|---|---|---|
| services/academic_reference_system.py:390-397 | the explanation key is built from the theory's "theory" field, e.g. "Capability Approach to Development" becomes "capability_approach_to_development", which is not a filed key | each of the three shipped theories (capability_approach, asset_based_development, social_capital) | look the explanation up by the database key, so each shipped theory gets its own explanation | not executed | AcademicReferences.TheoryExplanationMissesShipped | AcademicReferences.TheoryExplanationByNameShipped |
