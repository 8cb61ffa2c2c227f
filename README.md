# Audit backend: risk scoring, report assembly and the report store

A Dafny model of the Python backend of an AI-system audit service. A
client uploads a CSV or JSON file of model outputs. The backend scores
seven risk metrics from it: bias, hallucination, toxicity, robustness,
explainability, data leakage and drift. It tiers each score as LOW,
MEDIUM, HIGH or CRITICAL, and derives compliance obligations and a
rule-based analysis (or a language model's analysis). It then assembles
a structured report and keeps reports in a per-user store that can be
listed, read and deleted.

Modules, one per source file, plus two shared ones:

- `Common` (`common.dfy`): risk tiers, score dicts (an association list kept in insertion order), `Result`/`HttpError`, and the Python numeric and string built-ins the code relies on (`min`, `abs`, `round`, `lower`, `strip`, `title`, `replace`, `str`).
- `ReportBuilder` (`report_builder.dfy`): `services/report_builder.py`. It holds the tier function, the label, compliance and mitigation tables, the risk-record loop and the report assembly.
- `ClaudeService` (`claude_service.dfy`): `services/claude_service.py`. It holds the second tier function and compliance table, the HIGH/CRITICAL obligation loop, a stable descending sort, the rule-based analysis and the fallback dispatch of `generate_ai_analysis`.
- `Scoring` (`scoring.dfy`): `services/scoring.py`. It covers the case-insensitive column lookup, decision binarisation, the demographic-parity gap and the other six metrics with their fallbacks, and `compute_all_scores`.
- `Store` (`store.dfy`): the `uploads` and `reports` tables of `models/orm.py`, as a `Database` class with two map fields keyed by id. Each row carries its owner, and owner-scoped lookup is defined here.
- `UploadRouter` (`upload.dfy`): `routers/upload.py`. It covers the extension check, JSON list-or-object wrapping, empty-table rejection, scoring and the upload record.
- `ReportsRouter` (`reports.dfy`): `routers/reports.py`. It covers the score source (a re-scored upload, or manual scores with `or` defaults), report generation and storage, `_to_response`, and the owner-scoped list, get and delete.

Foreign code is passed in as values rather than modelled:

- pandas/numpy numerics, the regex engine and Detoxify are fields of `Scoring.Library`;
- the CSV reader, `json.loads` and the DataFrame constructor are fields of `UploadRouter.Parsers`;
- re-reading a stored file is a `ReportsRouter.Reload` function;
- the language-model call is an `ApiReply` plus a `parses` predicate;
- ids and clock readings are plain parameters.

A table is column-major: each column has its name, its cells as text
(what `astype(str)` gives) and whether its label is a string, and every
column has the table's height. Scoring can raise: its outcome is a value
or the text of the exception (`Scoring.Outcome`).

`Scoring.WellBehaved(lib)` says two things: standard deviations and PSI
values are non-negative, and the scores Detoxify returns lie in [0, 1]. The lemmas
that keep every score in [0, 1] assume it.

## Model

| member | source | states |
|---|---|---|
| Common.MeanInUnit | ai-audit-clean/auditai-backend/app/services/report_builder.py:86 | the mean of a non-empty list of scores in [0, 1] is itself in [0, 1] |
| Common.SumBounds | ai-audit-clean/auditai-backend/app/services/report_builder.py:86 | a sum of n scores in [0, 1] lies in [0, n] |
| Common.MinReal | ai-audit-clean/auditai-backend/app/services/scoring.py:96 | `min(a, b)` is at most both arguments and equal to one of them |
| Common.Abs | ai-audit-clean/auditai-backend/app/services/scoring.py:366 | `abs(x)` is non-negative and equal to `x` or `-x` |
| Common.Fraction | ai-audit-clean/auditai-backend/app/services/scoring.py:318 | `k / n` for `k <= n` lies in [0, 1] and multiplied by `n` gives back `k`; the empty case gives 0 |
| Common.RoundHalfEven | ai-audit-clean/auditai-backend/app/services/report_builder.py:88 | Python's `round` to an integer is within 0.5 of its argument and an exact tie goes to the even neighbour |
| Common.Lower | ai-audit-clean/auditai-backend/app/services/scoring.py:40 | `str.lower()` keeps the length and lowers every ASCII capital, character by character |
| Common.LowerIdempotent | ai-audit-clean/auditai-backend/app/services/scoring.py:40-42 | lowering twice is lowering once, so a candidate and a column compare by one lowering |
| Common.Strip | ai-audit-clean/auditai-backend/app/services/scoring.py:70 | `str.strip()` removes leading and trailing whitespace only: the result is a slice of the input whose ends are not whitespace |
| Common.StripLeft | ai-audit-clean/auditai-backend/app/services/claude_service.py:100 | `lstrip()`: drops exactly the leading whitespace, leaving a suffix that does not start with whitespace |
| Common.StripRight | ai-audit-clean/auditai-backend/app/services/claude_service.py:100 | `rstrip()`: drops exactly the trailing whitespace, leaving a prefix that does not end with whitespace |
| Common.ReplaceChar | ai-audit-clean/auditai-backend/app/services/claude_service.py:54 | `replace('_', ' ')` changes exactly the underscores and nothing else |
| Common.TitleFrom | ai-audit-clean/auditai-backend/app/services/claude_service.py:122 | `str.title()` upper-cases a letter exactly when it follows a non-letter, and lowers the others, keeping the length |
| Common.ReplaceAll | ai-audit-clean/auditai-backend/app/services/claude_service.py:100 | `replace(pat, rep)` leaves text without the pattern unchanged, and with an empty replacement never makes it longer |
| Common.ReplaceAllLeading | ai-audit-clean/auditai-backend/app/services/claude_service.py:100 | an occurrence at the start is replaced and the scan resumes right after it |
| Common.ReplaceAllCopiesFirst | ai-audit-clean/auditai-backend/app/services/claude_service.py:100 | a text that does not start with the pattern's first character keeps that character and the scan moves on by one |
| Common.ReplaceAllSkips | ai-audit-clean/auditai-backend/app/services/claude_service.py:100 | a prefix without the pattern's first character is copied unchanged |
| Common.NatToString | ai-audit-clean/auditai-backend/app/routers/upload.py:85 | the row count in the success message is `str(n)`: decimal digits whose value is n, with a leading zero only for 0 |
| ReportBuilder.RiskLevel | ai-audit-clean/auditai-backend/app/services/report_builder.py:57-61 | CRITICAL iff score >= 0.75, HIGH iff 0.5 <= score < 0.75, MEDIUM iff 0.25 <= score < 0.5, LOW iff score < 0.25 (boundaries go to the higher tier) |
| ReportBuilder.RiskLevelMonotone | ai-audit-clean/auditai-backend/app/services/report_builder.py:57-61 | a higher score never gets a lower tier in LOW < MEDIUM < HIGH < CRITICAL |
| ReportBuilder.RiskOf | ai-audit-clean/auditai-backend/app/services/report_builder.py:74-81 | a risk record carries the key, the score and its tier; label, compliance list and mitigation come from the tables, defaulting to the key itself, `[]` and "Review and implement appropriate controls." |
| ReportBuilder.BuildRisks | ai-audit-clean/auditai-backend/app/services/report_builder.py:72-82 | one risk record per score, in input order, each the record of that score |
| ReportBuilder.CountsBounded | ai-audit-clean/auditai-backend/app/services/report_builder.py:84-85 | the CRITICAL count plus the HIGH count never exceeds the number of risks |
| ReportBuilder.CountLevel | ai-audit-clean/auditai-backend/app/services/report_builder.py:84-85 | the count is at most the number of risks, and zero exactly when no risk has that level |
| ReportBuilder.MeanScore | ai-audit-clean/auditai-backend/app/services/report_builder.py:86 | the mean times the number of scores is their sum; scores in [0, 1] have a mean in [0, 1] |
| Common.Keys | ai-audit-clean/auditai-backend/app/services/scoring.py:398-406 | the dict's keys, one per entry, in insertion order |
| Common.Values | ai-audit-clean/auditai-backend/app/services/report_builder.py:86 | `scores.values()`: the scores, one per entry, in insertion order |
| ReportBuilder.Readiness | ai-audit-clean/auditai-backend/app/services/report_builder.py:88 | `round((1 - avg) * 100)` is within 0.5 of (1 - avg) * 100, and in [0, 100] when avg is in [0, 1] |
| ReportBuilder.BuildReport | ai-audit-clean/auditai-backend/app/services/report_builder.py:64-128 | risks one per score in order; summary counts equal the per-level counts and are bounded by the number of scores; overall risk is the tier of the mean and readiness the rounded percentage (in [0, 100] for scores in [0, 1]); `has_real_data` iff row count > 0 with the matching method text; `deploy_env` defaults to "production" and `framework` to "all", every other system field echoes the input; analysis, id and timestamp are carried through |
| ClaudeService.RiskLevel | ai-audit-clean/auditai-backend/app/services/claude_service.py:24-28 | the service's tier function agrees with the report builder's on every score |
| ClaudeService.Project | ai-audit-clean/auditai-backend/app/services/claude_service.py:14-22 | the (framework, ref) projection of a list of compliance entries, entry by entry |
| ClaudeService.ComplianceTablesAgree | ai-audit-clean/auditai-backend/app/services/claude_service.py:14-22 | the service's compliance table has the same metrics as the builder's, and for each it is exactly the (framework, ref) projection of the builder's entries, in order |
| ClaudeService.Triggered | ai-audit-clean/auditai-backend/app/services/claude_service.py:50-54 | a metric contributes all of its compliance entries, in order, when its tier is HIGH or CRITICAL, and nothing otherwise |
| ClaudeService.ComplianceObligations | ai-audit-clean/auditai-backend/app/services/claude_service.py:49-54 | the loop builds exactly the obligation list of the specification, metric by metric in dict order |
| ClaudeService.ObligationsAppend | ai-audit-clean/auditai-backend/app/services/claude_service.py:49-54 | the obligations of two concatenated score lists are the obligations of the first followed by those of the second |
| ClaudeService.ObligationsOf | ai-audit-clean/auditai-backend/app/services/claude_service.py:49-54 | each metric contributes at most its two compliance entries |
| ClaudeService.NoObligationsIffLowRisk | ai-audit-clean/auditai-backend/app/services/claude_service.py:49-70 | there are no obligations (the prompt's "None — system is low risk") exactly when every metric is below HIGH or has no compliance entry |
| ClaudeService.ObligationsSound | ai-audit-clean/auditai-backend/app/services/claude_service.py:50-54 | every obligation comes from a metric in the dict whose tier is HIGH or CRITICAL |
| ClaudeService.ObligationsComplete | ai-audit-clean/auditai-backend/app/services/claude_service.py:50-54 | every compliance entry of every HIGH or CRITICAL metric appears among the obligations |
| ClaudeService.Insert | ai-audit-clean/auditai-backend/app/services/claude_service.py:111 | inserting into the sorted list adds exactly one element |
| ClaudeService.SortDesc | ai-audit-clean/auditai-backend/app/services/claude_service.py:111 | the descending sort keeps the length |
| ClaudeService.InsertPermutes | ai-audit-clean/auditai-backend/app/services/claude_service.py:111 | insertion adds exactly the inserted metric to the multiset of elements |
| ClaudeService.InsertMembers | ai-audit-clean/auditai-backend/app/services/claude_service.py:111 | after insertion the members are the inserted metric and the old members |
| ClaudeService.SortedCons | ai-audit-clean/auditai-backend/app/services/claude_service.py:111 | a metric scoring at least every element of a descending list can be put in front of it |
| ClaudeService.InsertSorted | ai-audit-clean/auditai-backend/app/services/claude_service.py:111 | insertion into a descending list keeps it descending |
| ClaudeService.SortDescCorrect | ai-audit-clean/auditai-backend/app/services/claude_service.py:111 | `sorted(..., reverse=True)` is a permutation of the input in non-increasing score order |
| ClaudeService.InsertStable | ai-audit-clean/auditai-backend/app/services/claude_service.py:111 | among the metrics sharing one score, insertion puts the new metric first and keeps the others in their order |
| ClaudeService.SortStable | ai-audit-clean/auditai-backend/app/services/claude_service.py:111 | the sort is stable: metrics with equal scores keep their dict order |
| ClaudeService.TopIsMaximum | ai-audit-clean/auditai-backend/app/services/claude_service.py:111-112 | the first sorted metric is a member of the dict and scores at least as high as every metric |
| ClaudeService.TakeTop | ai-audit-clean/auditai-backend/app/services/claude_service.py:117 | `sorted_risks[:4]` is a prefix of length min(4, size) |
| ClaudeService.WithLevel | ai-audit-clean/auditai-backend/app/services/claude_service.py:113-114 | the `critical` and `high` lists hold exactly the metrics of that tier |
| ClaudeService.Eligible | ai-audit-clean/auditai-backend/app/services/claude_service.py:117-119 | the filter keeps exactly the metrics whose tier is not LOW |
| ClaudeService.EligibleSorted | ai-audit-clean/auditai-backend/app/services/claude_service.py:117-119 | filtering a descending list leaves it descending |
| ClaudeService.Regulation | ai-audit-clean/auditai-backend/app/services/claude_service.py:120 | the regulation is the first compliance entry of the metric, or "General Best Practice" when it has none |
| ClaudeService.RecsOfEligible | ai-audit-clean/auditai-backend/app/services/claude_service.py:116-127 | the loop's recommendations are, position by position, the recommendations of the eligible metrics |
| ClaudeService.RecFor | ai-audit-clean/auditai-backend/app/services/claude_service.py:117-126 | effort is "High" iff the metric is CRITICAL and "Medium" otherwise; the timeline is immediate iff CRITICAL and short-term otherwise; the regulation is the metric's first compliance entry |
| ClaudeService.RecsOf | ai-audit-clean/auditai-backend/app/services/claude_service.py:116-127 | at most one recommendation per metric visited |
| ClaudeService.RuleBasedAnalysis | ai-audit-clean/auditai-backend/app/services/claude_service.py:109-147 | the loop over the top four builds exactly the rule-based analysis of the specification |
| ClaudeService.Recommendations | ai-audit-clean/auditai-backend/app/services/claude_service.py:116-127 | the loop yields one recommendation per metric of tier MEDIUM or above, in the given order, and nothing else |
| ClaudeService.RecommendationsChosen | ai-audit-clean/auditai-backend/app/services/claude_service.py:116-127 | at most 4 recommendations, one per metric of the top four sorted metrics whose tier is MEDIUM or above, in descending score order |
| ClaudeService.TopPriorityIsHighest | ai-audit-clean/auditai-backend/app/services/claude_service.py:111-112 | the top priority names a metric of the dict, titled, whose score is at least every score |
| ClaudeService.NotReadyIffCritical | ai-audit-clean/auditai-backend/app/services/claude_service.py:143-146 | the readiness text is the "not ready" one when some metric is CRITICAL and the "conditionally ready" one when none is |
| ClaudeService.CountsAgree | ai-audit-clean/auditai-backend/app/services/claude_service.py:113-114 | the analysis' critical and high counts equal the report summary's per-level counts over the same scores |
| ClaudeService.StripFences | ai-audit-clean/auditai-backend/app/services/claude_service.py:100 | the cleaned reply is no longer than the raw one and neither starts nor ends with whitespace |
| ClaudeService.CleanReplyUnchanged | ai-audit-clean/auditai-backend/app/services/claude_service.py:100 | a reply with no backtick and no whitespace at either end is returned unchanged |
| ClaudeService.NoBacktickNoFence | ai-audit-clean/auditai-backend/app/services/claude_service.py:100 | a text without a backtick contains neither fence, so the two replacements leave it alone |
| ClaudeService.FencedReplyUnwrapped | ai-audit-clean/auditai-backend/app/services/claude_service.py:100 | a reply of the form "```json", newline, body, newline, "```" is cleaned to exactly the body, when the body has no backtick and no whitespace at either end |
| ClaudeService.JsonFenceRemoved | ai-audit-clean/auditai-backend/app/services/claude_service.py:100 | the first replacement removes the opening "```json" fence and keeps the rest, closing fence included |
| ClaudeService.ClosingFenceRemoved | ai-audit-clean/auditai-backend/app/services/claude_service.py:100 | the second replacement removes the closing "```" fence |
| ClaudeService.StripNewlines | ai-audit-clean/auditai-backend/app/services/claude_service.py:100 | `strip()` removes the newline before and the newline after a stripped body |
| ClaudeService.InfoText | ai-audit-clean/auditai-backend/app/services/claude_service.py:131-132 | `system_info.get(k, default)` in an f-string: the default when the key is missing, the value when set, "None" when null |
| ClaudeService.TopFramework | ai-audit-clean/auditai-backend/app/services/claude_service.py:137 | the top priority's framework is the one the metric's recommendation regulation names first, with "General" matching "General Best Practice" |
| ClaudeService.RuleBasedAnalysisOf | ai-audit-clean/auditai-backend/app/services/claude_service.py:105-145 | at most four recommendations; the readiness text is "not ready", and the narrative "significant", exactly when the critical count is non-zero |
| ClaudeService.GenerateAiAnalysis | ai-audit-clean/auditai-backend/app/services/claude_service.py:40-106 | no API key gives the rule-based analysis; a failed call gives the rule-based analysis; a reply gives the fence-stripped text when it parses as JSON and the rule-based analysis otherwise |
| Store.Owned | ai-audit-clean/auditai-backend/app/routers/reports.py:40-45 | an upload (and, at reports.py:153-158, a report) is found iff it exists and belongs to the caller, and then it is the stored row |
| Store.Database.constructor | ai-audit-clean/auditai-backend/app/models/orm.py:25-58 | a fresh store has no uploads and no reports |
| Store.Database.AddUpload | ai-audit-clean/auditai-backend/app/routers/upload.py:69-77 | adds the upload row under its new id; reports unchanged |
| Store.Database.AddReport | ai-audit-clean/auditai-backend/app/routers/reports.py:97-118 | adds the report row under its new id; uploads unchanged |
| Store.Database.RemoveReport | ai-audit-clean/auditai-backend/app/routers/reports.py:174-175 | removes exactly the given report; uploads unchanged |
| Store.RemoveExactlyOne | ai-audit-clean/auditai-backend/app/routers/reports.py:174-175 | removing a present id lowers the count by one, drops that id and keeps every other record as it was |
| Scoring.Names | ai-audit-clean/auditai-backend/app/routers/upload.py:83 | `list(df.columns)`: the column names in order |
| Scoring.Cells | ai-audit-clean/auditai-backend/app/services/scoring.py:78 | `df[name].astype(str)` has one cell per row |
| Scoring.CellsInFirst | ai-audit-clean/auditai-backend/app/services/scoring.py:78 | with several columns of that name, the cells are those of the first |
| Scoring.CellsIn | ai-audit-clean/auditai-backend/app/services/scoring.py:78 | the cells returned are those of a column of that name, one per row |
| Scoring.LowerCols | ai-audit-clean/auditai-backend/app/services/scoring.py:40 | every lowered column name maps to a column with that lowered form, and every column's lowered form is present |
| Scoring.LowerColsLastWins | ai-audit-clean/auditai-backend/app/services/scoring.py:40 | when several columns lower to the same name, the last of them is the one kept |
| Scoring.ColumnFor | ai-audit-clean/auditai-backend/app/services/scoring.py:38-44 | a found column is an actual column name of the frame |
| Scoring.ColumnForFirstMatch | ai-audit-clean/auditai-backend/app/services/scoring.py:41-44 | None iff no candidate matches any column case-insensitively; otherwise the column of the first matching candidate in candidate order |
| Scoring.ColumnForFindsCaseVariant | ai-audit-clean/auditai-backend/app/services/scoring.py:38-44 | a column that equals some candidate up to case is always found |
| Scoring.FindCol | ai-audit-clean/auditai-backend/app/services/scoring.py:38-44 | the loop with early return gives exactly the specified lookup |
| Scoring.Col | ai-audit-clean/auditai-backend/app/services/scoring.py:60 | a column found in a frame is among its names |
| Scoring.MeanTrue | ai-audit-clean/auditai-backend/app/services/scoring.py:128 | the mean of a boolean series lies in [0, 1] and times the length is the number of true values |
| Scoring.NormalisedAll | ai-audit-clean/auditai-backend/app/services/scoring.py:126-127 | `astype(str).str.lower().str.strip()` cell by cell |
| Scoring.PositiveIgnoresCase | ai-audit-clean/auditai-backend/app/services/scoring.py:69-70 | whether a decision is positive does not depend on letter case |
| Scoring.Binary | ai-audit-clean/auditai-backend/app/services/scoring.py:69-71 | a decision counts as positive iff its lowered, stripped text is one of approved, yes, accept, 1, true, positive, pass |
| Scoring.Unique | ai-audit-clean/auditai-backend/app/services/scoring.py:80 | `unique()` holds every group value exactly once and nothing else |
| Scoring.Mask | ai-audit-clean/auditai-backend/app/services/scoring.py:81 | `groups == group` is true exactly at the rows of that group |
| Scoring.Trues | ai-audit-clean/auditai-backend/app/services/scoring.py:82 | `mask.sum()` counts the true entries, at most one per entry |
| Scoring.TruesMonotone | ai-audit-clean/auditai-backend/app/services/scoring.py:82 | a mask true wherever another one is counts no fewer rows |
| Scoring.GroupRate | ai-audit-clean/auditai-backend/app/services/scoring.py:84 | a group's positive rate lies in [0, 1] |
| Scoring.Qualifying | ai-audit-clean/auditai-backend/app/services/scoring.py:82-83 | the groups kept are exactly the distinct groups with at least 5 rows |
| Scoring.RatesOf | ai-audit-clean/auditai-backend/app/services/scoring.py:79-85 | one rate per qualifying group, each that group's positive rate, all in [0, 1] |
| Scoring.GroupRates | ai-audit-clean/auditai-backend/app/services/scoring.py:79-85 | the loop over unique groups gives exactly the specified rates |
| Scoring.MaxOf | ai-audit-clean/auditai-backend/app/services/scoring.py:88 | `max(rates)` is a member at least as large as every rate |
| Scoring.MinOf | ai-audit-clean/auditai-backend/app/services/scoring.py:88 | `min(rates)` is a member at most as large as every rate |
| Scoring.Gap | ai-audit-clean/auditai-backend/app/services/scoring.py:86-89 | the gap is non-negative, bounds every pairwise difference, is attained by one pair, and is at most 1 for rates in [0, 1] |
| Scoring.AttributeRates | ai-audit-clean/auditai-backend/app/services/scoring.py:78-84 | the rates of the qualifying groups of an attribute column all lie in [0, 1] |
| Scoring.AttributeGap | ai-audit-clean/auditai-backend/app/services/scoring.py:74-89 | no column gives no gap; with a column, a gap exists iff at least two groups qualify, and it is max − min of their rates, in [0, 1] |
| Scoring.GapsOf | ai-audit-clean/auditai-backend/app/services/scoring.py:73-90 | at most one gap per attribute, all in [0, 1] |
| Scoring.GapsOfConcat | ai-audit-clean/auditai-backend/app/services/scoring.py:73-90 | visiting attributes in sequence appends their gaps, so the gaps are exactly the present attribute gaps in attribute order |
| Scoring.GapsOfThree | ai-audit-clean/auditai-backend/app/services/scoring.py:73-90 | for three attributes (gender, race, age) the gaps are the first's, then the second's, then the third's, each when present |
| Scoring.GapsOfOne | ai-audit-clean/auditai-backend/app/services/scoring.py:73-90 | one attribute contributes its gap when it has one, and nothing otherwise |
| Scoring.Present | ai-audit-clean/auditai-backend/app/services/scoring.py:86-89 | an absent gap is skipped and a present one appended |
| Scoring.BiasGaps | ai-audit-clean/auditai-backend/app/services/scoring.py:60-90 | no decision column gives no gaps; otherwise the gaps of the three protected attributes for the binarised decisions; at most three, all in [0, 1] |
| Scoring.Numeric | ai-audit-clean/auditai-backend/app/services/scoring.py:105 | `to_numeric(errors="coerce").dropna()` can only drop cells |
| Scoring.Rescaled | ai-audit-clean/auditai-backend/app/services/scoring.py:137-138 | when some value exceeds 1.0 every value is divided by 100, otherwise the values are unchanged |
| Scoring.Confidence | ai-audit-clean/auditai-backend/app/services/scoring.py:135-138 | the confidence series has at most one value per row |
| Scoring.FallbackBias | ai-audit-clean/auditai-backend/app/services/scoring.py:101-107 | at most 1; 0.3 without a confidence column; in [0, 1] when the standard deviation is non-negative |
| Scoring.BiasOf | ai-audit-clean/auditai-backend/app/services/scoring.py:51-98 | with at least one gap the score is `min(mean gap / 0.4, 1)` and lies in [0, 1]; with none (no decision column, or no attribute with two qualifying groups) it is the fallback |
| Scoring.AttributeGapScore | ai-audit-clean/auditai-backend/app/services/scoring.py:74-89 | the per-attribute loop body gives exactly the specified gap |
| Scoring.CollectGaps | ai-audit-clean/auditai-backend/app/services/scoring.py:73-90 | the loop over the protected attributes collects exactly the specified gaps |
| Scoring.ComputeBiasScore | ai-audit-clean/auditai-backend/app/services/scoring.py:51-98 | the bias computation gives exactly the specified score |
| Scoring.Mismatches | ai-audit-clean/auditai-backend/app/services/scoring.py:126-128 | a row mismatches iff its normalised prediction differs from its normalised ground truth |
| Scoring.Below | ai-audit-clean/auditai-backend/app/services/scoring.py:139 | `conf < t` value by value |
| Scoring.HallucinationOf | ai-audit-clean/auditai-backend/app/services/scoring.py:114-143 | in [0, 1]; with decision and ground-truth columns it is the mismatch rate; with neither that pair nor a confidence column it is 0.3 |
| Scoring.JoinWith | ai-audit-clean/auditai-backend/app/services/scoring.py:185 | joining no parts gives the empty text and joining one part gives that part |
| Scoring.JoinPrepend | ai-audit-clean/auditai-backend/app/services/scoring.py:185 | joining `[p] + ps` is `p`, the separator, then the join of `ps` |
| Scoring.JoinThree | ai-audit-clean/auditai-backend/app/services/scoring.py:185 | the three keyword patterns joined by "|" are the first, "|", the second, "|", the third |
| Scoring.ScorableTexts | ai-audit-clean/auditai-backend/app/services/scoring.py:161-162 | each text that is neither blank nor "nan" in any case is kept exactly as often as it occurs, and no other text is kept |
| Scoring.ScorableTextsConcat | ai-audit-clean/auditai-backend/app/services/scoring.py:161-162 | the filter keeps the cells' order: the texts of two runs of cells are the first run's, then the second run's |
| Common.FilterKeeps | ai-audit-clean/auditai-backend/app/services/scoring.py:162 | a list comprehension keeps an element that passes its test as often as it occurs |
| Common.FilterDrops | ai-audit-clean/auditai-backend/app/services/scoring.py:162 | a list comprehension never keeps an element that fails its test |
| Common.FilterConcat | ai-audit-clean/auditai-backend/app/services/scoring.py:162 | a list comprehension over two concatenated lists is the concatenation of the two comprehensions |
| Common.Filter | ai-audit-clean/auditai-backend/app/services/scoring.py:162 | the comprehension keeps at most as many elements as it visits |
| Common.Collect | ai-audit-clean/auditai-backend/app/services/scoring.py:73-90 | the loop appends at most one value per element visited |
| Common.FlatMap | ai-audit-clean/auditai-backend/app/services/claude_service.py:49-54 | the nested loop over an empty dict appends nothing |
| Common.FlatMapConcat | ai-audit-clean/auditai-backend/app/services/claude_service.py:49-54 | the nested loop over two concatenated lists appends the two results in turn |
| Common.FlatMapBound | ai-audit-clean/auditai-backend/app/services/claude_service.py:49-54 | an inner loop of at most k steps per element gives at most k results per element |
| Common.CollectConcat | ai-audit-clean/auditai-backend/app/services/scoring.py:73-90 | a loop that appends each present value, run over two concatenated lists, appends the two collections |
| Common.CollectAll | ai-audit-clean/auditai-backend/app/services/scoring.py:73-90 | every value such a loop collects satisfies what every present value satisfies |
| Scoring.Matching | ai-audit-clean/auditai-backend/app/services/scoring.py:187 | one match flag per text, each the search result of the pattern on that text |
| Scoring.KeywordRate | ai-audit-clean/auditai-backend/app/services/scoring.py:186-189 | `toxic_count / len(texts)`: the rate times the number of texts is the number of texts the pattern matches, and lies in [0, 1] |
| Scoring.TextToxicity | ai-audit-clean/auditai-backend/app/services/scoring.py:166-190 | with Detoxify: its outcome on the first 200 texts (a value, or the exception it raises); without it: the keyword rate; a value lies in [0, 1] for a well-behaved library |
| Scoring.ToxicityOf | ai-audit-clean/auditai-backend/app/services/scoring.py:150-190 | 0.1 without a text column or without scorable text; otherwise the toxicity of the scorable texts with the three patterns joined by "|"; it raises only through Detoxify |
| Scoring.DecisionsFor | ai-audit-clean/auditai-backend/app/services/scoring.py:226 | the decisions grouped under a prompt are exactly those of the rows with that prompt |
| Scoring.NonDeterminismRate | ai-audit-clean/auditai-backend/app/services/scoring.py:225-228 | the share of prompts with more than one distinct decision lies in [0, 1] |
| Scoring.ConfidenceComponents | ai-audit-clean/auditai-backend/app/services/scoring.py:209-220 | two components, both in [0, 1] when the standard deviation is non-negative |
| Scoring.RobustnessComponents | ai-audit-clean/auditai-backend/app/services/scoring.py:206-229 | two components with a confidence column, plus one with prompt and decision columns; all in [0, 1] for a well-behaved library |
| Scoring.RobustnessOf | ai-audit-clean/auditai-backend/app/services/scoring.py:231-236 | 0.4 when no component applies, otherwise the mean of the components; in [0, 1] for a well-behaved library |
| Scoring.ComputeRobustnessScore | ai-audit-clean/auditai-backend/app/services/scoring.py:197-236 | the appending computation gives exactly the specified score |
| Scoring.Explained | ai-audit-clean/auditai-backend/app/services/scoring.py:257-258 | a row counts as explained iff its stripped explanation is longer than 5 characters |
| Scoring.Between | ai-audit-clean/auditai-backend/app/services/scoring.py:268 | `(conf > lo) & (conf < hi)` value by value |
| Scoring.ExplainabilityOf | ai-audit-clean/auditai-backend/app/services/scoring.py:243-277 | at most 1; 0.15 when more than 80% of rows are explained; 0.75 with neither an explanation nor a confidence column; in [0, 1] for a well-behaved library |
| Scoring.LeakCount | ai-audit-clean/auditai-backend/app/services/scoring.py:311-316 | each text is counted at most once, so the count is at most the number of texts |
| Scoring.LeakCountAppend | ai-audit-clean/auditai-backend/app/services/scoring.py:311-316 | one more text adds one to the count iff it matches some pattern |
| Scoring.DataLeakageOf | ai-audit-clean/auditai-backend/app/services/scoring.py:284-320 | in [0, 1]; 0.1 without a text column; otherwise the leaking count divided by max(n, 1) |
| Scoring.CountLeaks | ai-audit-clean/auditai-backend/app/services/scoring.py:311-316 | the nested loop with `break` counts exactly the texts matching at least one pattern |
| Scoring.ComputeDataLeakageScore | ai-audit-clean/auditai-backend/app/services/scoring.py:284-320 | the computation gives exactly the specified score |
| Scoring.DriftPositive | ai-audit-clean/auditai-backend/app/services/scoring.py:363-365 | a drift decision is positive iff its lowered text is one of approved, yes, accept, 1, true, positive |
| Scoring.Halves | ai-audit-clean/auditai-backend/app/services/scoring.py:341-343 | `iloc[:mid]` and `iloc[mid:]` split the rows into two consecutive parts of sizes n // 2 and n - n // 2 |
| Scoring.DriftOf | ai-audit-clean/auditai-backend/app/services/scoring.py:327-371 | at most 1; 0.2 for fewer than 20 rows; the decision shift gives `min(abs(shift) / 0.2, 1)` in [0, 1]; 0.25 with neither a confidence nor a decision column; in [0, 1] for a well-behaved library |
| Scoring.ScoreDict | ai-audit-clean/auditai-backend/app/services/scoring.py:399-407 | the seven scores under the keys bias, hallucination, toxicity, robustness, explainability, data_leakage, drift, in that order |
| Scoring.AllScoresOf | ai-audit-clean/auditai-backend/app/services/scoring.py:392-412 | a non-string column label raises the `lower` AttributeError; otherwise a Detoxify exception is raised; among the exceptions modelled, it succeeds exactly when neither happens, and then gives the seven metric values under the seven keys, in order |
| Scoring.BiasInUnit | ai-audit-clean/auditai-backend/app/services/scoring.py:51-98 | the bias score lies in [0, 1] for a well-behaved library |
| Scoring.ToxicityInUnit | ai-audit-clean/auditai-backend/app/services/scoring.py:150-190 | a toxicity score that is returned lies in [0, 1] for a well-behaved library |
| Scoring.ScoreDictInUnit | ai-audit-clean/auditai-backend/app/services/scoring.py:399-407 | a dict of seven scores in [0, 1] has all its values in [0, 1] |
| Scoring.MetricsInUnit | ai-audit-clean/auditai-backend/app/services/scoring.py:399-407 | each of the seven metrics (toxicity when it is returned) lies in [0, 1] for a well-behaved library |
| Scoring.AllScoresInUnit | ai-audit-clean/auditai-backend/app/services/scoring.py:392-396 | every value of a `compute_all_scores` run that does not raise lies in [0, 1] for a well-behaved library |
| Scoring.ComputeAllScores | ai-audit-clean/auditai-backend/app/services/scoring.py:392-412 | the computation gives exactly the specified outcome: the exception, or the seven scores |
| UploadRouter.AfterLastDot | ai-audit-clean/auditai-backend/app/routers/upload.py:37 | the extension is a suffix containing no '.', preceded by a '.' unless it is the whole name |
| UploadRouter.Extension | ai-audit-clean/auditai-backend/app/routers/upload.py:37 | the extension is a dot-free end of the lower-cased name, preceded by a dot unless it is the whole name |
| UploadRouter.ParseTable | ai-audit-clean/auditai-backend/app/routers/upload.py:46-51 | "csv" uses the CSV reader; otherwise a `json.loads` error is the result, and a parsed document goes to the DataFrame constructor as records |
| UploadRouter.Empty | ai-audit-clean/auditai-backend/app/routers/upload.py:55 | `df.empty`: no rows or no columns |
| UploadRouter.SuccessMessage | ai-audit-clean/auditai-backend/app/routers/upload.py:85 | the message is the fixed prefix, decimal digits spelling the row count, and the fixed suffix |
| UploadRouter.NoDotIsWhole | ai-audit-clean/auditai-backend/app/routers/upload.py:37 | a name without a '.' is its own extension part |
| UploadRouter.AfterTheLastDot | ai-audit-clean/auditai-backend/app/routers/upload.py:37 | whatever precedes the last '.', the part after it is what remains |
| UploadRouter.ExtensionIsLastPart | ai-audit-clean/auditai-backend/app/routers/upload.py:37 | the extension of `name.ext` is `ext` lowered for any `name`, and a name without a '.' is its own lowered extension |
| UploadRouter.Records | ai-audit-clean/auditai-backend/app/routers/upload.py:51 | a JSON list becomes one row per element; any other JSON value becomes one row |
| UploadRouter.AcceptedTable | ai-audit-clean/auditai-backend/app/routers/upload.py:36-56 | an extension other than csv or json gives 400; a parse error gives 422 "Failed to parse file: " plus the message; a parsed table is rejected with 422 "File contains no data rows" iff it has no rows or no columns, and is otherwise accepted unchanged |
| UploadRouter.RejectedBeforeReading | ai-audit-clean/auditai-backend/app/routers/upload.py:39-43 | an unsupported extension is rejected whatever the content |
| UploadRouter.JsonObjectIsOneRecord | ai-audit-clean/auditai-backend/app/routers/upload.py:50-51 | a JSON document that is not a list is parsed as a table of a single record |
| UploadRouter.UploadFile | ai-audit-clean/auditai-backend/app/routers/upload.py:36-86 | any rejection returns its error and stores nothing; an exception from scoring (outside the `try`) gives a plain 500 and stores nothing; otherwise exactly one upload row is added with the row count, and the response carries that count, the column names, the seven scores and the success message; reports unchanged |
| ReportsRouter.OrReal | ai-audit-clean/auditai-backend/app/routers/reports.py:64-72 | `x or d`: a missing value and an explicit 0 both give the default, any other value is kept |
| ReportsRouter.ManualScores | ai-audit-clean/auditai-backend/app/routers/reports.py:62-72 | the seven metric keys in order, each the supplied score unless missing or 0, in which case 0.3, 0.3, 0.1, 0.3, 0.4, 0.2, 0.25 |
| ReportsRouter.RequestedScores | ai-audit-clean/auditai-backend/app/routers/reports.py:65-71 | the request's seven optional scores, one per metric |
| ReportsRouter.ManualScoresNeverZero | ai-audit-clean/auditai-backend/app/routers/reports.py:64-72 | no manual score is 0; an explicit 0.0 is replaced by the default |
| ReportsRouter.SystemInfoOf | ai-audit-clean/auditai-backend/app/routers/reports.py:75-85 | the system info holds exactly the nine request fields |
| ReportsRouter.Rescored | ai-audit-clean/auditai-backend/app/routers/reports.py:52-60 | an exception from re-reading the stored upload or from scoring it gives 500 "Failed to process uploaded file: " plus its text; otherwise the seven scores of the table and its row count |
| ReportsRouter.Rescore | ai-audit-clean/auditai-backend/app/routers/reports.py:52-60 | the `try` block gives exactly the specified re-scoring result |
| ReportsRouter.ScoreSource | ai-audit-clean/auditai-backend/app/routers/reports.py:36-72 | with an upload id: 404 "Upload not found" unless the upload exists and is the caller's, else the re-scoring of that upload (500 or its seven scores and row count); without one: the manual scores and row count 0; always the seven metric keys |
| ReportsRouter.ForeignUploadNotFound | ai-audit-clean/auditai-backend/app/routers/reports.py:40-45 | someone else's upload is treated exactly like a missing one |
| ReportsRouter.LoadScores | ai-audit-clean/auditai-backend/app/routers/reports.py:36-72 | the branch on the upload id gives exactly the specified score source |
| ReportsRouter.ReportRowOf | ai-audit-clean/auditai-backend/app/routers/reports.py:92-115 | the stored overall risk is the tier name of the mean score and the readiness its rounded percentage; each of the seven score columns holds the score under its key; the request fields are copied |
| ReportsRouter.AssembleReport | ai-audit-clean/auditai-backend/app/routers/reports.py:75-115 | the stored row's full report agrees with the row on overall risk and readiness, carries the row count and one risk record per score, and its analysis is the model's reply only with a key, a reply and a parse, else the rule-based one |
| ReportsRouter.GeneratedResponseIsKnown | ai-audit-clean/auditai-backend/app/routers/reports.py:92-120 | the response to a generated report never falls back to "UNKNOWN" or a defaulted readiness or score |
| ReportsRouter.GenerateReport | ai-audit-clean/auditai-backend/app/routers/reports.py:21-120 | an error leaves the store unchanged; otherwise exactly one report row is added, assembled from the score source, and the response is what `get_report` returns for it |
| ReportsRouter.ToResponse | ai-audit-clean/auditai-backend/app/routers/reports.py:179-198 | overall risk defaults to "UNKNOWN" (so it is never empty), readiness and each metric default to 0 when null; every other field is copied |
| ReportsRouter.OrText | ai-audit-clean/auditai-backend/app/routers/reports.py:185 | Python `or` on a text: a non-empty value is kept, None or "" gives the default, so a non-empty default never yields "" |
| ReportsRouter.OrInt | ai-audit-clean/auditai-backend/app/routers/reports.py:186 | Python `or` on a number: a non-zero value is kept, None or 0 gives the default, so a non-zero default never yields 0 |
| ReportsRouter.GetReport | ai-audit-clean/auditai-backend/app/routers/reports.py:147-159 | a response iff the report exists and belongs to the caller, and then it is the stored row's response; otherwise 404 "Report not found" |
| ReportsRouter.OwnedIds | ai-audit-clean/auditai-backend/app/routers/reports.py:129-133 | exactly the ids of the caller's reports |
| ReportsRouter.NewestExists | ai-audit-clean/auditai-backend/app/routers/reports.py:132 | every non-empty set of reports has a newest one |
| ReportsRouter.AppendNewest | ai-audit-clean/auditai-backend/app/routers/reports.py:129-133 | appending the newest not-yet-listed id keeps the list distinct and newest first |
| ReportsRouter.NewestFirst | ai-audit-clean/auditai-backend/app/routers/reports.py:129-133 | the given ids, each exactly once, in non-increasing creation time |
| ReportsRouter.ListReports | ai-audit-clean/auditai-backend/app/routers/reports.py:123-144 | exactly the caller's reports, each once, newest first, each item copied from its row |
| ReportsRouter.ListItem | ai-audit-clean/auditai-backend/app/routers/reports.py:135-142 | one listing entry carries the id and the stored model, organisation, risk, readiness and creation time, nulls as they are |
| ReportsRouter.IdsOf | ai-audit-clean/auditai-backend/app/routers/reports.py:134-143 | the ids of the listing, one per item, in order |
| ReportsRouter.DeleteReport | ai-audit-clean/auditai-backend/app/routers/reports.py:162-176 | 404 "Report not found" and no change unless the report exists and is the caller's; otherwise exactly that record is removed and its id returned |
| ReportsRouter.DeletedIsNotFound | ai-audit-clean/auditai-backend/app/routers/reports.py:162-176 | after a delete its owner gets 404 for it and every other report reads as before |
| ReportsRouter.OthersSeeNotFound | ai-audit-clean/auditai-backend/app/routers/reports.py:153-158 | a report belonging to another user gives 404 and is not among the caller's ids |

## Left out

- The language-model request itself is not modelled: the prompt text, its percentage formatting, the Anthropic client and `json.loads` of the reply (`services/claude_service.py:44-47, 56-99, 101`). The call is an `ApiReply` (failed, or the raw text), and whether the cleaned text parses is the `parses` parameter. The parsed JSON is kept as its cleaned text.
- The executive summary and top priority of the rule-based analysis are not formatted sentences. They keep the values interpolated into them (model, organisation and use case, the critical and high counts, the top metric's name, score and framework), because percentage formatting (`:.0%`) is float formatting. The narrative, readiness and recommendation texts are kept as strings.
- Statistics and foreign libraries are opaque fields of `Scoring.Library`: `std`, `pd.to_numeric`, the PSI of `_compute_psi` (`services/scoring.py:374-385`), `re.search` and the Detoxify model. Only `WellBehaved` constrains them. Detoxify is the only one of them that can raise (anything but `ImportError`, which selects the keyword fallback); the others are taken never to raise.
- A column label that is not a string is modelled as a flag on the column (`textLabel`). Pandas gives integer position labels to a frame built from JSON records that are not objects, such as `[1, 2, 3]`; `_find_col` then raises `'int' object has no attribute 'lower'`, which is the only label exception modelled.
- UploadRouter.UploadFile: an unhandled exception is answered with the framework's default 500 "Internal Server Error"; the exception handling of FastAPI and the logging are otherwise not modelled.
- Scoring.NonDeterminismRate: `nunique()` (`services/scoring.py:226`) counts distinct raw decision values, while the model counts distinct `astype(str)` texts. For one prompt, the JSON decisions `1` and `"1"` are two values in the source and one in the model.
- Scoring.AllScoresInUnit: this bound, like those of `BiasInUnit`, `ToxicityInUnit` and `MetricsInUnit`, is proved only for libraries whose standard deviations and PSI are non-negative reals and whose toxicity model scores lie in [0, 1]. numpy does not always give such values: the standard deviation of fewer than two values is NaN (see the next line).
- NaN is not modelled, because it has no real counterpart. A pandas mean of an empty series is NaN; here it is 0 (`Fraction(k, 0)`). An empty series arises for an all-empty confidence column or for no qualifying group.
- Scoring.FallbackBias: `conf.std()` of a single confidence value is NaN, and `min(nan * 2, 1.0)` stays NaN (`services/scoring.py:106`), as does `min(nan * 3, 1.0)` in robustness (`services/scoring.py:214`). So a one-row upload such as `confidence` / `0.9` gets NaN bias and robustness scores. `round((1 - avg_score) * 100)` (`services/report_builder.py:88`) then raises ValueError, and `generate_report` answers 500 and stores nothing. The model's `std` returns a real, so `ReportsRouter.GenerateReport` returns Ok and adds a row for that upload.
- Scoring.NonDeterminismRate: `nunique()` on decision cells that hold JSON lists or objects raises TypeError (unhashable type) (`services/scoring.py:226`). Cells are modelled as text, so this exception is not modelled, and `Scoring.AllScoresOf` succeeds on such an upload.
- Scoring.ComputeAllScores: the final `round(float(v), 4)` (`services/scoring.py:410`) is left out, so results are the unrounded reals. Rounding to four places is float formatting.
- ReportBuilder.BuildReport: `summary.avg_score` is the unrounded mean, not `round(avg_score, 4)` (`services/report_builder.py:112`), for the same reason. The tier and readiness use the unrounded mean in the source as well.
- String operations cover ASCII only. `lower`, `title` and `strip` do no Unicode case mapping, and whitespace is limited to the characters below U+0100.
- Duplicate column names are not modelled as pandas treats them. With two columns of exactly the same name, `df[name]` is a frame rather than a column; `Scoring.Cells` takes the first column of that name, and `_find_col` returns the last of several names that differ only in case, as written.
- Missing cells are modelled as their text. `astype(str)` turns them into "nan", which then counts as an ordinary group, decision or prompt value, exactly as in the source. The exception is `nunique` in the non-determinism rate: pandas skips missing decisions there, while the model counts "nan" as one more distinct decision. Cells that `to_numeric` cannot read are dropped, as `lib.toNumeric` decides.
- Drift's PSI branch is modelled as `min(psi / 0.25, 1)` of an opaque PSI, because the histogram and logarithm are floating point; its positive-term set has no "pass" and no strip, exactly as written.
- SQLAlchemy sessions, async `commit`/`refresh` and the engine are replaced by the `Store.Database` maps. Database-assigned ids and `created_at` are parameters. The list order for reports with equal `created_at` is whatever the selection picks, since SQL leaves it unspecified.
- ReportsRouter.GenerateReport: requires the new report id to be unused, and UploadFile likewise the new upload id. The database's uuid primary keys ensure this.
- ReportsRouter.ListReports: orders by `created_at` descending and leaves the order of equal timestamps open.
- ClaudeService.GenerateAiAnalysis: requires a non-empty score dict. The rule-based analysis indexes `sorted_risks[0]`, and every caller passes seven scores.
- Pydantic request and response validation is not modelled. For example, `ReportListItem` declares `overall_risk: str`, which a null column would fail; every row `generate_report` stores has both fields set.
- `storage.py` (local files and S3, `save_upload`, `load_file_path`) is reduced to the storage path `save_upload` returns and the `Reload` function. Authentication (`security.py`, `auth.py`), app wiring (`main.py`), settings (`config.py`) and `sample_csv` are not part of this model. The API key is a parameter; an empty key stands for a missing one.
- Re-scoring a stored JSON upload uses `pd.read_json` (`routers/reports.py:55`), not the upload path's `json.loads` plus list wrapping. The two are separate parameters, so the model does not claim they agree.
