# UMBRA legal assistant: the eight workflow components, modelled in Dafny

UMBRA is a React front end with eight legal-assistant tools:

- a 24/7 chat;
- a specialised consultancy;
- contract correction;
- clause risk analysis;
- data extraction;
- document review;
- due diligence;
- investment risk evaluation.

None of them calls a back end. Each keeps some input (a file, a file list, form fields or a chat draft), a busy flag and a result. A submit handler checks a guard, sets the busy flag and starts a `setTimeout`. When the timer fires, the callback installs a hard-coded result and clears the flag.

This project models each component as a Dafny `class` whose fields are the component's `useState` variables:

- every handler is a method that changes exactly those fields;
- every timer callback is an explicit `…TimerFires` method;
- the pure helpers next to the handlers are functions with lemmas. These are keyword-priority replies, specialty dispatch, score and confidence banding, severity filters and counts, the applied-correction toggle, de-duplication of field names and the label mappings.

A timer captures the values of the render it was started in: the chat draft, the consultancy's specialty and query, the extraction's file list, and the company names of due diligence and risk evaluation. The model therefore keeps a queue of the captured values, one per outstanding timer, oldest first. Every timer of a component waits the same delay, so they fire in queue order. Components whose callbacks capture nothing keep a count instead. Each class has a `Valid()` invariant saying its fields are consistent. In every class but the consultancy, `Valid()` also says the busy flag is set only while a timer is outstanding. In the consultancy that clause is a separate predicate, `LoadingOnlyWhilePending`: its callback as written breaks it (see Findings).

Modules:

- `Text`: the JavaScript string operations the components use. These are `trim()` (only ever checked for emptiness), `toLowerCase()`/`toUpperCase()` on ASCII and Latin-1, `includes()`, and printing a count in a template literal.
- `Findings`: the shared level, colour-band and file types, the 80/60 score banding, and a generic order-preserving filter (`Select`) with its lemmas.
- `Wrappers`: an `Option` type.
- One module per component: `ChatLegal`, `ConsultoriaEspecializada`, `CorreccionContratos`, `AnalisisRiesgos`, `ExtraccionDatos`, `RevisionDocumentos`, `DueDiligence`, `EvaluacionRiesgos`.

A handler models only the component's own guard. A button's `disabled` condition and the conditions under which parts of the page are shown are separate predicates, e.g. `Chat.SendButtonEnabled` and `Corrector.ShowsProcessButton`. A click on a disabled button is modelled only where the difference matters: `Chat.ClickSend` versus `Chat.PressKey`.

Two places where a plain reading of the design would differ from the code. The model follows the code in both:

- A completion that arrives after the user has moved on (selected another file, reset, or submitted again) is not discarded. The callback installs its fixed result regardless. `…TimerFires` is allowed in any state with an outstanding timer.
- A submit is not restricted to an idle component. Only the button's `disabled` attribute prevents a second submission, and the chat's Enter key bypasses even that. Each submit queues one more timer.

## Model

| member | source | states |
|---|---|---|
| Text.TrimStart | src/components/ChatLegal.tsx:24 | `trim()`'s leading cut: the result is a suffix of the input, everything cut off is whitespace, and the result does not start with whitespace |
| Text.TrimEnd | src/components/ChatLegal.tsx:24 | `trim()`'s trailing cut: the result is a prefix, everything cut off is whitespace, and the result does not end with whitespace |
| Text.BlankIffTrimEmpty | src/components/ChatLegal.tsx:24 | the guard `!s.trim()` holds exactly when every character of `s` is ECMAScript whitespace |
| Text.ToLower | src/components/ChatLegal.tsx:51 | `toLowerCase()` keeps the length and maps each character on its own |
| Text.ToUpper | src/components/ConsultoriaEspecializada.tsx:180 | `toUpperCase()` keeps the length and maps each character on its own |
| Text.LowerIdempotent | src/components/ChatLegal.tsx:51 | lower-casing twice is lower-casing once |
| Text.LowerOfUpper | src/components/ChatLegal.tsx:51 | lower-casing an upper-cased string equals lower-casing the original |
| Text.NatToString | src/components/ExtraccionDatos.tsx:48 | a count prints as a non-empty string of decimal digits |
| Text.ParseNatToString | src/components/ExtraccionDatos.tsx:48 | the printed count reads back as the same count |
| Text.PluralSuffix | src/components/DueDiligence.tsx:261 | the suffix is "s" exactly when the count is not 1, and empty exactly when it is 1 |
| Findings.ScoreTone | src/components/RevisionDocumentos.tsx:81-85 | green exactly for scores of 80 and over, yellow exactly for 60 to 79, red exactly below 60 |
| Findings.ScoreToneMonotone | src/components/DueDiligence.tsx:113-117 | a higher score never gets a worse band |
| Findings.Select | src/components/AnalisisRiesgos.tsx:132 | `filter(x => key(x) === k)`: never longer than the input, and every kept element has key `k` |
| Findings.SelectIsSubsequence | src/components/AnalisisRiesgos.tsx:132 | the filtered list keeps the original order: it is a subsequence of the input |
| Findings.SelectMultiplicity | src/components/AnalisisRiesgos.tsx:132 | every element with key `k` is kept as often as it occurs, and no other element is kept |
| Findings.SelectAppend | src/components/ChatLegal.tsx:33 | filtering a concatenation is concatenating the filtered parts |
| Findings.SelectAllMatching | src/components/AnalisisRiesgos.tsx:132 | when every element already has key `k`, nothing is dropped |
| Findings.LevelCountsPartition | src/components/AnalisisRiesgos.tsx:134-139 | the high, medium and low counts add up to the list length, because a level has exactly three values |
| ChatLegal.ReplyTopic | src/components/ChatLegal.tsx:50-70 | on the lower-cased draft: contract words win; otherwise labour words; otherwise criminal words; otherwise civil words; otherwise the general reply. Each case is stated in both directions |
| ChatLegal.GenerateBotResponse | src/components/ChatLegal.tsx:50-70 | the contract reply exactly when the lower-cased draft mentions "contrato" or "contractual", and the general reply exactly when it mentions no keyword of any topic |
| ChatLegal.ReplyIgnoresCase | src/components/ChatLegal.tsx:51 | an upper-cased draft gets the same reply as the draft |
| ChatLegal.ReplyOfLowered | src/components/ChatLegal.tsx:51 | a lower-cased draft gets the same reply as the draft |
| ChatLegal.UpperCaseContractDraft | src/components/ChatLegal.tsx:51-54 | the draft "CONTRATO" gets the contract reply |
| ChatLegal.CountAppendOne | src/components/ChatLegal.tsx:33 | appending one message raises the count of its sender by one and leaves the other count alone |
| ChatLegal.Chat.constructor | src/components/ChatLegal.tsx:12-21 | the history starts as exactly the bot greeting, with an empty draft and no typing indicator |
| ChatLegal.Chat.SetInputMessage | src/components/ChatLegal.tsx:154 | the draft becomes the typed value |
| ChatLegal.Chat.HandleSendMessage | src/components/ChatLegal.tsx:23-36 | a blank draft changes nothing. Otherwise the untrimmed draft is appended as one user message, the draft is cleared, typing is set, and a reply timer captures the draft. Every user message stays answered or pending, and typing is shown only while a reply is pending |
| ChatLegal.Chat.ClickSend | src/components/ChatLegal.tsx:159-161 | a click does nothing while the button is disabled (blank draft or bot typing), and sends otherwise |
| ChatLegal.Chat.PressKey | src/components/ChatLegal.tsx:155 | Enter sends whatever the typing indicator says; any other key changes nothing |
| ChatLegal.Chat.ReplyTimerFires | src/components/ChatLegal.tsx:38-47 | exactly one bot message is appended, answering the draft captured at send time. Earlier messages are untouched and typing is cleared |
| ChatLegal.Conversation | src/components/ChatLegal.tsx:23-47 | send then reply leaves exactly the greeting, the draft as a user message and the bot's reply to that draft, with an empty draft, no typing indicator and no reply pending |
| ConsultoriaEspecializada.CatalogueIdsDistinct | src/components/ConsultoriaEspecializada.tsx:19-68 | the six specialty ids are pairwise distinct |
| ConsultoriaEspecializada.Find | src/components/ConsultoriaEspecializada.tsx:77 | `find` returns nothing exactly when no entry has the id; otherwise it returns the first entry with the id |
| ConsultoriaEspecializada.LookupSucceeds | src/components/ConsultoriaEspecializada.tsx:77 | looking up any id a specialty button can select finds exactly that entry |
| ConsultoriaEspecializada.GeneralTextHeading | src/components/ConsultoriaEspecializada.tsx:180 | the generic answer opens with its heading followed by the upper-cased specialty name |
| ConsultoriaEspecializada.GenerarRespuestaEspecializada | src/components/ConsultoriaEspecializada.tsx:84-208 | labour: the dismissal text iff the lower-cased query has "despido" or "terminación", else a ReferenceError. Corporate: the M&A text iff it has "fusión" or "adquisición", else a ReferenceError. Criminal: the fixed text. Every other specialty: the generic text |
| ConsultoriaEspecializada.CriminalIgnoresQuery | src/components/ConsultoriaEspecializada.tsx:152-177 | the criminal-law answer is the same for every query |
| ConsultoriaEspecializada.GenericSpecialties | src/components/ConsultoriaEspecializada.tsx:178-204 | civil, regulatory and financial law all get the generic text built from their own name |
| ConsultoriaEspecializada.LabourQueryWithoutKeywordFails | src/components/ConsultoriaEspecializada.tsx:207 | the labour query "hola" ends in the ReferenceError |
| ConsultoriaEspecializada.GenerarRespuestaCorregida | src/components/ConsultoriaEspecializada.tsx:207 | always an answer: the written generator's answer where it gives one, and the fall-back sentence where it throws |
| ConsultoriaEspecializada.RespondUsesSelectedSpecialty | src/components/ConsultoriaEspecializada.tsx:76-80 | a timer for catalogue entry `i` answers as entry `i` dictates, both as written and corrected |
| ConsultoriaEspecializada.LookUp | src/components/ConsultoriaEspecializada.tsx:77 | a selected id always finds a catalogue entry, and the entry has that id |
| ConsultoriaEspecializada.Respond | src/components/ConsultoriaEspecializada.tsx:76-78 | the callback as written can throw only for a labour or a corporate request |
| ConsultoriaEspecializada.RespondCorregida | src/components/ConsultoriaEspecializada.tsx:76-78 | the corrected callback gives the written answer where there is one, and the selected specialty's fall-back sentence where the written one throws |
| ConsultoriaEspecializada.LabourRequestFails | src/components/ConsultoriaEspecializada.tsx:76-80 | a labour timer without a dismissal keyword throws as written, and gives the labour fall-back sentence once corrected |
| ConsultoriaEspecializada.Consultoria.constructor | src/components/ConsultoriaEspecializada.tsx:14-17 | nothing selected, empty query and answer, not loading, and so no loading without a timer |
| ConsultoriaEspecializada.Consultoria.SelectEspecialidad | src/components/ConsultoriaEspecializada.tsx:235 | a specialty button selects its catalogue id |
| ConsultoriaEspecializada.Consultoria.SetConsulta | src/components/ConsultoriaEspecializada.tsx:271 | the query becomes the typed value |
| ConsultoriaEspecializada.Consultoria.HandleConsulta | src/components/ConsultoriaEspecializada.tsx:70-74 | nothing happens without a selected specialty or with a blank query. Otherwise loading is set and a timer captures the id and the query |
| ConsultoriaEspecializada.Consultoria.ConsultaTimerFiresAsWritten | src/components/ConsultoriaEspecializada.tsx:76-81 | the oldest timer is consumed. Where the written generator answers, its answer is stored and loading cleared. Where it throws, the answer and the loading flag stay exactly as they were |
| ConsultoriaEspecializada.Consultoria.ConsultaTimerFires | src/components/ConsultoriaEspecializada.tsx:76-81 | with the corrected generator, the answer is stored and loading cleared. Where the written generator answers, the stored answer is its answer |
| ConsultoriaEspecializada.SubmitLabourQuery | src/components/ConsultoriaEspecializada.tsx:70-74 | selecting labour law and submitting a query leaves loading set and one labour request pending |
| ConsultoriaEspecializada.LabourQueryStaysLoading | src/components/ConsultoriaEspecializada.tsx:70-81 | as written, selecting labour law and submitting a query without a dismissal keyword ends loading for good: no timer is left, no answer is shown, and the submit button stays disabled |
| ConsultoriaEspecializada.LabourQueryGetsFallback | src/components/ConsultoriaEspecializada.tsx:70-81 | corrected, the same steps end with the labour fall-back sentence shown, loading cleared and the submit button enabled again |
| CorreccionContratos.IdsCardinality | src/components/CorreccionContratos.tsx:228 | a list of corrections has no more ids than corrections |
| CorreccionContratos.IdsUnfold | src/components/CorreccionContratos.tsx:238 | the ids of a list are its first id plus the ids of the rest |
| CorreccionContratos.Toggled | src/components/CorreccionContratos.tsx:89-97 | the membership of the toggled id flips, and every other id keeps its membership |
| CorreccionContratos.ToggleTwice | src/components/CorreccionContratos.tsx:89-97 | toggling the same id twice restores the applied set |
| CorreccionContratos.ToggleStaysWithin | src/components/CorreccionContratos.tsx:259 | toggling a listed id keeps the applied set inside the listed ids |
| CorreccionContratos.SeverityCount | src/components/CorreccionContratos.tsx:210-222 | a severity counter never exceeds the list length |
| CorreccionContratos.SeverityCountsSum | src/components/CorreccionContratos.tsx:210-222 | the high, medium and low counters add up to the list length |
| CorreccionContratos.MockSeverityCounts | src/components/CorreccionContratos.tsx:36-82 | the fixture has two high, two medium and one low correction |
| CorreccionContratos.DistinctIdsCount | src/components/CorreccionContratos.tsx:228 | with distinct ids, the number of ids is the number of corrections |
| CorreccionContratos.MockIdsDistinct | src/components/CorreccionContratos.tsx:36-82 | the fixture's five ids are distinct, so the applied counter can reach five |
| CorreccionContratos.SubsetCardinality | src/components/CorreccionContratos.tsx:228 | a subset is never larger than its superset |
| CorreccionContratos.Corrector.constructor | src/components/CorreccionContratos.tsx:15-18 | no file, no corrections, empty applied set, not processing |
| CorreccionContratos.Corrector.HandleFileSelect | src/components/CorreccionContratos.tsx:20-27 | no file changes nothing. A file is stored, and the corrections and the applied set are cleared |
| CorreccionContratos.Corrector.HandleProcess | src/components/CorreccionContratos.tsx:29-33 | nothing happens without a file; otherwise processing is set and a timer starts |
| CorreccionContratos.Corrector.ProcessTimerFires | src/components/CorreccionContratos.tsx:84-85 | the fixture list is installed, processing cleared and the applied set kept. The results panel replaces the process button |
| CorreccionContratos.Corrector.ToggleCorrection | src/components/CorreccionContratos.tsx:89-97 | the applied set becomes the toggle of the clicked correction's id. Every applied id stays a listed id |
| CorreccionContratos.Corrector.AppliedCount | src/components/CorreccionContratos.tsx:228 | the "Aplicadas" counter is the size of the applied set, never more than the number of corrections |
| CorreccionContratos.Corrector.ProcessAnother | src/components/CorreccionContratos.tsx:313-315 | file, corrections and applied set are cleared |
| AnalisisRiesgos.FilteredRisks | src/components/AnalisisRiesgos.tsx:130-132 | `all` shows the whole list; a level shows only clauses of that level, never more than the list |
| AnalisisRiesgos.LevelFilterExact | src/components/AnalisisRiesgos.tsx:132 | a level filter keeps the original order and keeps every clause of its level, as often as it occurs |
| AnalisisRiesgos.RiskStatsOf | src/components/AnalisisRiesgos.tsx:134-139 | total is the list length, and high + medium + low = total |
| AnalisisRiesgos.ButtonCountMatchesView | src/components/AnalisisRiesgos.tsx:249-273 | the count printed on each filter button is the length of the list that filter shows |
| AnalisisRiesgos.MockHighClauses | src/components/AnalisisRiesgos.tsx:36-97 | the fixture's high-risk clauses are its first two |
| AnalisisRiesgos.MockMediumClauses | src/components/AnalisisRiesgos.tsx:36-97 | the fixture's medium-risk clauses are its third to fifth |
| AnalisisRiesgos.MockStats | src/components/AnalisisRiesgos.tsx:134-139 | the fixture's statistics are 2 high, 3 medium, 1 low, 6 in total |
| AnalisisRiesgos.MockNeverEmptyView | src/components/AnalisisRiesgos.tsx:130-132 | with the fixture installed, every filter shows at least one clause |
| AnalisisRiesgos.RiskAnalyzer.constructor | src/components/AnalisisRiesgos.tsx:16-19 | no file, no clauses, filter `all`, not analysing |
| AnalisisRiesgos.RiskAnalyzer.HandleFileSelect | src/components/AnalisisRiesgos.tsx:21-27 | a file is stored and the clauses cleared; the filter is left as it was |
| AnalisisRiesgos.RiskAnalyzer.HandleAnalyze | src/components/AnalisisRiesgos.tsx:29-32 | nothing happens without a file; otherwise analysing is set and a timer starts |
| AnalisisRiesgos.RiskAnalyzer.AnalyzeTimerFires | src/components/AnalisisRiesgos.tsx:99-100 | the fixture is installed and analysing cleared. The results panel replaces the analyze button |
| AnalisisRiesgos.RiskAnalyzer.SetFilterRisk | src/components/AnalisisRiesgos.tsx:244-268 | a filter button sets the filter |
| AnalisisRiesgos.RiskAnalyzer.NoRisksMessageNeverShown | src/components/AnalisisRiesgos.tsx:329 | since only the fixture is ever installed, the "no risks of this level" message never appears |
| ExtraccionDatos.FileNameReadsBackCount | src/components/ExtraccionDatos.tsx:48 | for several documents, the result's name ends in " documentos" and its leading digits read back as the document count |
| ExtraccionDatos.FileNameFor | src/components/ExtraccionDatos.tsx:48 | one document gives its own name; several give a name ending in " documentos" |
| ExtraccionDatos.ExtractionResult | src/components/ExtraccionDatos.tsx:48-49 | `totalDocuments` is the number of captured documents, and a single document gives its own name |
| ExtraccionDatos.ConfidenceBand | src/components/ExtraccionDatos.tsx:162-166 | high exactly from 95, medium exactly from 85 to 94, low exactly below 85 |
| ExtraccionDatos.ConfidenceColor | src/components/ExtraccionDatos.tsx:162-166 | the text is green exactly from 95, yellow exactly from 85 to 94, red exactly below 85 |
| ExtraccionDatos.ConfidenceBadge | src/components/ExtraccionDatos.tsx:168-172 | the badge is green exactly from 95, yellow exactly from 85 to 94, red exactly below 85 |
| ExtraccionDatos.ConfidenceLabel | src/components/ExtraccionDatos.tsx:349 | "Alta" exactly from 95, "Media" exactly from 85 to 94, "Baja" exactly below 85 |
| ExtraccionDatos.ConfidenceHelpersAgree | src/components/ExtraccionDatos.tsx:162-172 | for every confidence, the text colour, the badge colour and the label name the same band |
| ExtraccionDatos.FirstIndex | src/components/ExtraccionDatos.tsx:174-176 | the position of the first occurrence |
| ExtraccionDatos.FirstIndexOfPrefix | src/components/ExtraccionDatos.tsx:174-176 | appending keeps every first occurrence where it was |
| ExtraccionDatos.Dedup | src/components/ExtraccionDatos.tsx:175 | `[...new Set(xs)]` has no duplicates and holds exactly the values of `xs` |
| ExtraccionDatos.DedupFirstOccurrenceOrder | src/components/ExtraccionDatos.tsx:175 | the distinct values come out in order of first occurrence |
| ExtraccionDatos.FieldNames | src/components/ExtraccionDatos.tsx:175 | the field names, in table order |
| ExtraccionDatos.UniqueFieldNames | src/components/ExtraccionDatos.tsx:174-176 | no data gives no options. Otherwise the options are free of duplicates and are exactly the names of the extracted fields |
| ExtraccionDatos.FilteredFields | src/components/ExtraccionDatos.tsx:178-182 | no data gives nothing; "all" gives every field; any other name gives at most the whole table (what it keeps is stated by `NameFilterExact`) |
| ExtraccionDatos.NameFilterExact | src/components/ExtraccionDatos.tsx:181 | a name filter keeps table order and keeps every field of that name, as often as it occurs |
| ExtraccionDatos.FilterOptionNeverEmpty | src/components/ExtraccionDatos.tsx:174-182 | every name the filter offers shows at least one row |
| ExtraccionDatos.PreviewNames | src/components/ExtraccionDatos.tsx:229-231 | the preview lists the first five names, or all of them when there are fewer |
| ExtraccionDatos.MoreCount | src/components/ExtraccionDatos.tsx:232-234 | the "... y n más" line is present exactly when there are more than five documents |
| ExtraccionDatos.PreviewAccountsForAll | src/components/ExtraccionDatos.tsx:229-234 | listed names plus the "más" count account for every selected document |
| ExtraccionDatos.Extractor.constructor | src/components/ExtraccionDatos.tsx:27-30 | no documents, no data, filter "all", not processing |
| ExtraccionDatos.Extractor.HandleFileSelect | src/components/ExtraccionDatos.tsx:32-38 | no list or an empty list changes nothing. Otherwise the list is stored and the data cleared; the filter is kept |
| ExtraccionDatos.Extractor.HandleExtraction | src/components/ExtraccionDatos.tsx:40-43 | nothing happens without documents; otherwise processing is set and a timer captures the list |
| ExtraccionDatos.Extractor.ExtractionTimerFires | src/components/ExtraccionDatos.tsx:46-158 | the result for the list captured at submission is installed and processing cleared. The results replace the process button |
| ExtraccionDatos.Extractor.SetFilterField | src/components/ExtraccionDatos.tsx:312 | the filter becomes the chosen option |
| ExtraccionDatos.Extractor.Reset | src/components/ExtraccionDatos.tsx:376-378 | documents and data are cleared and the filter goes back to "all" |
| RevisionDocumentos.CountOf | src/components/RevisionDocumentos.tsx:73 | an issue-type count never exceeds the number of issues |
| RevisionDocumentos.MockSummaryMatches | src/components/RevisionDocumentos.tsx:39-73 | the summary's figures (score 78, 4 areas, 1 error, 2 warnings) match the fixture's own score and issues |
| RevisionDocumentos.BarAgreesWithScoreText | src/components/RevisionDocumentos.tsx:181-189 | for every score, the progress bar and the score text fall in the same band |
| RevisionDocumentos.BarTone | src/components/RevisionDocumentos.tsx:187-189 | the progress bar is green exactly from 80, yellow exactly from 60 to 79, red exactly below 60 |
| RevisionDocumentos.MockScoreIsYellow | src/components/RevisionDocumentos.tsx:181-189 | the fixture's 78 is shown in the middle band |
| RevisionDocumentos.DocumentReview.constructor | src/components/RevisionDocumentos.tsx:19-21 | no file, no review, not analysing |
| RevisionDocumentos.DocumentReview.HandleFileSelect | src/components/RevisionDocumentos.tsx:23-29 | a file is stored and any previous review cleared |
| RevisionDocumentos.DocumentReview.HandleAnalyze | src/components/RevisionDocumentos.tsx:31-34 | nothing happens without a file; otherwise analysing is set and a timer starts |
| RevisionDocumentos.DocumentReview.AnalyzeTimerFires | src/components/RevisionDocumentos.tsx:76-77 | the fixed review is installed and analysing cleared; the analyze button disappears |
| RevisionDocumentos.DocumentReview.ShownSummaryMatches | src/components/RevisionDocumentos.tsx:73 | any review on screen has a summary that matches it |
| RevisionDocumentos.DocumentReview.AnalyzeAnother | src/components/RevisionDocumentos.tsx:240-241 | file and review are cleared |
| DueDiligence.MockReport | src/components/DueDiligence.tsx:44-106 | the report carries the submitted company name, the score 72, six findings and six recommendations |
| DueDiligence.CategoryCards | src/components/DueDiligence.tsx:246-253 | four category cards with distinct keys |
| DueDiligence.MockReportTones | src/components/DueDiligence.tsx:236-257 | one banding for overall and category scores: 72 yellow; legal 85 green; financial 68 and operational 78 yellow; regulatory 58 red |
| DueDiligence.IssuesLabelPlural | src/components/DueDiligence.tsx:261 | "problema(s) identificado(s)" ends in "s" exactly when the count is not 1, and reads "1 problema identificado" for one |
| DueDiligence.IssuesLabel | src/components/DueDiligence.tsx:261 | the issue line starts with the printed count |
| DueDiligence.Investigation.constructor | src/components/DueDiligence.tsx:33-35 | empty name, no report, not processing |
| DueDiligence.Investigation.SetCompanyName | src/components/DueDiligence.tsx:188 | the name becomes the typed value |
| DueDiligence.Investigation.HandleStart | src/components/DueDiligence.tsx:37-40 | a blank name changes nothing; otherwise processing is set and a timer captures the name |
| DueDiligence.Investigation.ProcessTimerFires | src/components/DueDiligence.tsx:43-109 | the report for the captured name is installed and processing cleared; the form disappears |
| DueDiligence.Investigation.NewAnalysis | src/components/DueDiligence.tsx:324-325 | report and company name are cleared, so the form returns with its button disabled |
| EvaluacionRiesgos.MockAssessment | src/components/EvaluacionRiesgos.tsx:56-159 | the assessment carries the submitted company name, medium overall risk, score 68 and the "caution" recommendation |
| EvaluacionRiesgos.KnownLevelsAgree | src/components/EvaluacionRiesgos.tsx:166-190 | for low, medium and high, the text colour, the background, the badge and the label name the same band |
| EvaluacionRiesgos.RiskColor | src/components/EvaluacionRiesgos.tsx:166-177 | green exactly for "low", yellow exactly for "medium", red exactly for "high", gray exactly for every other string |
| EvaluacionRiesgos.RiskBg | src/components/EvaluacionRiesgos.tsx:179-190 | the same four-way mapping for the overall panel's background |
| EvaluacionRiesgos.LevelLabel | src/components/EvaluacionRiesgos.tsx:358 | "Bajo" exactly for "low", "Medio" exactly for "medium", "Alto" exactly for every other string |
| EvaluacionRiesgos.BadgeTone | src/components/EvaluacionRiesgos.tsx:353-357 | green exactly for "low", yellow exactly for "medium", red exactly for every other string; never gray |
| EvaluacionRiesgos.RecommendationColor | src/components/EvaluacionRiesgos.tsx:192-203 | green exactly for "invest", yellow exactly for "caution", red exactly for "avoid", gray exactly for every other string |
| EvaluacionRiesgos.UnknownLevelFallbacks | src/components/EvaluacionRiesgos.tsx:166-190 | any other string is coloured gray by the helpers but labelled "Alto" on a red badge |
| EvaluacionRiesgos.RecommendationLabel | src/components/EvaluacionRiesgos.tsx:414-416 | INVERTIR exactly for invest, PROCEDER CON CAUTELA exactly for caution, EVITAR INVERSIÓN exactly for everything else |
| EvaluacionRiesgos.MockAssessmentLabels | src/components/EvaluacionRiesgos.tsx:322-335 | the fixture shows "Medio" in yellow and "PROCEDER CON CAUTELA" in yellow |
| EvaluacionRiesgos.TopFactors | src/components/EvaluacionRiesgos.tsx:365 | `slice(0, 2)` gives the first two factors in order, or all of them when there are fewer |
| EvaluacionRiesgos.MockCardsShowTwoFactors | src/components/EvaluacionRiesgos.tsx:60-111 | every fixed category card lists exactly its first two factors |
| EvaluacionRiesgos.Evaluation.constructor | src/components/EvaluacionRiesgos.tsx:43-47 | three empty inputs, no assessment, not analysing |
| EvaluacionRiesgos.Evaluation.SetCompanyName | src/components/EvaluacionRiesgos.tsx:248 | the company name becomes the typed value |
| EvaluacionRiesgos.Evaluation.SetInvestmentAmount | src/components/EvaluacionRiesgos.tsx:263 | the amount becomes the typed value |
| EvaluacionRiesgos.Evaluation.SetTimeHorizon | src/components/EvaluacionRiesgos.tsx:278 | the horizon becomes the chosen option |
| EvaluacionRiesgos.Evaluation.HandleAnalyze | src/components/EvaluacionRiesgos.tsx:49-52 | nothing happens unless all three inputs are non-blank; otherwise analysing is set and a timer captures the company name |
| EvaluacionRiesgos.Evaluation.AnalyzeTimerFires | src/components/EvaluacionRiesgos.tsx:55-163 | the assessment for the captured name is installed and analysing cleared; the form disappears |
| EvaluacionRiesgos.Evaluation.NewEvaluation | src/components/EvaluacionRiesgos.tsx:459-462 | the assessment and all three inputs are cleared, so the form returns incomplete |

## Left out

- Timer delays and scheduling: each timer callback is an explicit method, callable while one of its timers is outstanding. Unmounting a component with a timer outstanding is not modelled.
- Fixture texts are abbreviated. This covers the chat replies, the consultancy analyses (only the first line or heading is kept) and the texts of corrections, clauses, issues, findings, recommendations, key risks and summaries. Only the ids, levels, scores, counts and the figures a summary states are kept. The fixed categories' factor lists are kept in full.
- `Date.now()` message ids, `new Date()` timestamps and `toLocaleTimeString` in the chat: these depend on the clock and the locale.
- Floating point and number formatting: file sizes in MB via `toFixed`, the extraction summary's total value and average confidence, `parseInt(amount) * 0.6` for the maximum investment (not a field of the model), and `toLocaleString`.
- ConsultoriaEspecializada.Consultoria.ConsultaTimerFires: models the callback with the corrected generator, which always answers and clears loading. The callback as the code runs it is `ConsultaTimerFiresAsWritten`. With it, a throwing request leaves loading set with no timer left, as `LabourQueryStaysLoading` shows.
- Text.ToLower, Text.ToUpper: only ASCII and the Latin-1 letters are case-mapped. Other characters map to themselves, including "ß", "ÿ" and "µ", whose JavaScript mappings change length or leave Latin-1.
- Text.LowerOfUpper: holds only for this Latin-1 mapping. In JavaScript, `"µ".toUpperCase().toLowerCase()` is "μ" (U+03BC), not "µ", and for "ß" it is "ss".
- ChatLegal.ReplyIgnoresCase: holds only for this Latin-1 mapping. In JavaScript, "cıvıl" (dotless ı, U+0131) lower-cases to itself and gets the general reply, while its upper-cased form "CIVIL" gets the civil reply. "reſponſabilidad" (long s, U+017F) behaves the same way.
- The extraction summary (contract types and their plural, date range, parties) and the per-field value, source and page. The summary's "contrato(s)" plural is the same `n !== 1` rule as `Text.PluralSuffix`.
- Icons, `className` strings, layout and the application's module routing: colours are modelled only as bands (`Tone`).
- The download buttons: they have no handlers.
- File contents: they are never read. A file is its name and size.
- An empty file list reaching the extraction callback: `handleFileSelect` never stores one, so `Extractor.Valid()` excludes it and the callback's `selectedFiles[0]` is always defined.

## Findings

| source | as written | input that shows it | evidently intended | confidence | as-written member | corrected member |
|---|---|---|---|---|---|---|
| src/components/ConsultoriaEspecializada.tsx:207 | After the `switch`, the generator returns `respuestaGenerada \|\| fallback`. That name is declared only inside `handleConsulta`'s timer callback (line 78), so it is not in scope. A labour query without "despido"/"terminación" or a corporate query without "fusión"/"adquisición" breaks out of its case and throws a ReferenceError. `setRespuesta` and `setIsLoading(false)` never run, so the component stays loading with no timer left to clear it | specialty "laboral" with the query "hola" | return the fall-back sentence "Análisis especializado en ‹nombre› para tu consulta específica." | high (not executed) | ConsultoriaEspecializada.GenerarRespuestaEspecializada, ConsultoriaEspecializada.LabourQueryWithoutKeywordFails, ConsultoriaEspecializada.Consultoria.ConsultaTimerFiresAsWritten, ConsultoriaEspecializada.LabourQueryStaysLoading | ConsultoriaEspecializada.GenerarRespuestaCorregida |

The consultancy class has both callbacks:

- `Consultoria.ConsultaTimerFiresAsWritten` is the code as written. Where the generator throws, loading stays set.
- `Consultoria.ConsultaTimerFires` uses the corrected generator. It always clears loading, so `LoadingOnlyWhilePending` holds afterwards.

`LabourRequestFails` states the difference for a single timer: as written, such a request throws; corrected, it answers with the fall-back sentence. Two scenarios follow the same steps (select labour law, submit a query without a dismissal keyword, let the timer fire) with each callback:

- `LabourQueryStaysLoading` ends loading, with no timer left and the submit button disabled.
- `LabourQueryGetsFallback` ends with the fall-back sentence shown and the button enabled again.
