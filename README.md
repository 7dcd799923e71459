# BiasGuard, modelled in Dafny

BiasGuard is a hiring-fairness tool with two analysis kernels and the logic around them:

- **The job-text bias scanner** (`AzureLanguageBiasDetector` in `azure_language_service.py`).
  - It joins a job's title and description as `title + ". " + description` and lower-cases the result.
  - It tests every term of a five-category taxonomy by substring containment.
  - For each match it records a detected term, with a suggestion from a replacement table or a fallback string.
  - It adds 25, 15 or 5 points by severity, caps the score at 100 and maps it to one of five bias levels.
  - The Azure sentiment call is the only foreign step. Here it is a function value held by the detector, and its answer is copied into the result unchanged.
- **The fairness calculator** (`compute_fairness_metrics` in `azure_ml_fairness_engine.py`).
  - It computes the selection rates of the rows whose gender is exactly "male" or "female".
  - It reports their signed difference (the demographic parity difference) and the lower/higher ratio.
  - It applies the four-fifths adverse-impact rule of 29 CFR 1607.4(D): pass when the ratio is at least 0.8.
  - Rates are ratios of counts, modelled exactly as `real`.
- **Configuration** (`config.py`): the taxonomy and replacement tables, the thresholds, `DEMO_MODE` parsing, the two credential validators and `get_status`.
- **The dashboard's logic** (`app.py`):
  - the upload validator and the lower-casing of genders before analysis;
  - the session-state initialisation;
  - the lazy "try once, remember the failure" construction of the detector;
  - the result-box style for a bias level.
- **Chart data** (`visualization.py`):
  - the radar scores;
  - the bar colours and truncated titles;
  - the level, category and term counters, which are dictionaries updated in loops;
  - the stable top-10 term ranking.
- **The command-line pipeline** (`main.py`): the fallback batch summary, the executive summary's figures, the "bias reduction" figure and the rule that both analyses must succeed before charts are drawn.

Modules, one per source file:

| Module | File | Models |
|---|---|---|
| `Wrappers` | `wrappers.dfy` | `Option` and `Result` |
| `Text` | `text.dfy` | lower-casing and substring search |
| `Config` | `config.dfy` | `config.py` |
| `LanguageService` | `language_service.dfy` | `azure_language_service.py` |
| `FairnessEngine` | `fairness_engine.dfy` | `azure_ml_fairness_engine.py` |
| `Tally` | `tally.dfy` | Python dictionary counters and `sorted(..., reverse=True)[:10]` |
| `Visualization` | `visualization.dfy` | `visualization.py` |
| `App` | `app.dfy` | `app.py` |
| `Orchestrator` | `orchestrator.dfy` | `main.py` |

How the code is shaped:

- **Code that works step by step** keeps that form:
  - the scanner's nested loops and the batch loop are methods of the `AzureLanguageBiasDetector` class;
  - the chart counters are methods with loops;
  - the session state is a class whose `slots` map the methods update.
- **Each such method is proved against a specification function.** The properties are then proved about that function:
  - `AnalyzeSingleJob` is proved against `Analysis`;
  - the counters are proved against `Tally.IsTally` of the flattened items;
  - `InitSessionState` is proved against `InitialSlots`.
- **A Python dict is an association list** `seq<(string, nat)>`, so insertion order is kept as Python keeps it.

## Model

| member | source | states |
|---|---|---|
| Text.Lower | azure_language_service.py:107 | `str.lower`: same length, each character lower-cased (ASCII letters) and nothing else changed |
| Text.LowerIdempotent | azure_language_service.py:107 | lower-casing twice is lower-casing once |
| Text.LowerEqualIff | azure_language_service.py:107 | two texts lower-case to the same string iff they are equal ignoring case |
| Text.Contains | azure_language_service.py:112 | Python's `in` on strings: true iff the pattern occurs at some position of the text |
| Config.DemoMode | config.py:70 | demo mode iff the setting is absent (default "true") or equals "true" ignoring case |
| Config.ValidateAzureCredentials | config.py:217-222 | succeeds (with True) iff endpoint and key are both set and non-empty, else the credentials error |
| Config.ValidateAzureMlCredentials | config.py:231-244 | in demo mode always True; otherwise succeeds iff subscription, resource group and workspace are all set and non-empty |
| Config.GetStatus | config.py:254-272 | language flag agrees with the language validator, ML flag with the ML validator, mode is DEMO/LIVE by demo mode, directories and workspace passed through |
| Config.TaxonomyShape | config.py:125-165 | exactly five categories: age and gender high, origin and physical medium, cultural low |
| Config.ReplacementKeysAreTerms | config.py:171-185 | every replacement key is a term of some category |
| Config.NestedTerms | config.py:126-160 | "native" lies inside "digital native" and "fit" inside "culture fit" |
| Config.EeocThresholdIsFourFifths | config.py:76-81 | the configured EEOC threshold is 0.8 |
| LanguageService.Suggestion | azure_language_service.py:119-122 | the replacement for an exact key, otherwise "Use a more inclusive alternative" |
| LanguageService.Points | azure_language_service.py:125-131 | high gives 25, medium 15, any other severity 5; always between 5 and 25 |
| LanguageService.LevelOf | azure_language_service.py:142-148 | each of the five levels holds exactly on its band: CRITICAL from 75, HIGH 50-74, MEDIUM 25-49, LOW 1-24, MINIMAL otherwise |
| LanguageService.TotalPointsBounds | azure_language_service.py:125-131 | the points of n hits lie between 5n and 25n |
| LanguageService.Analysis | azure_language_service.py:94-160 | detected terms are the matching taxonomy entries in category-then-term order; score is min(points, 100) in [0,100]; bias detected iff a term matched iff score > 0; level is the band of the score; sentiment copied |
| LanguageService.TermDetectedIff | azure_language_service.py:109-123 | a taxonomy entry is reported iff its lower-cased term occurs in the lower-cased text |
| LanguageService.HitsSound | azure_language_service.py:109-123 | the hits are a sub-multiset of the candidates (one per taxonomy entry), so no entry is reported twice however often its term occurs; every hit is a taxonomy entry whose term occurs in the text |
| LanguageService.NestedTermsBothReported | azure_language_service.py:109-131 | when one term lies inside another that occurs, both entries are reported and credited separately |
| LanguageService.DigitalNativeYieldsTwoHits | azure_language_service.py:109-131 | text containing "digital native" gets both the age hit "digital native" (suggestion "technology-proficient") and the origin hit "native" (suggestion "fluent") |
| LanguageService.ScanIgnoresCase | azure_language_service.py:106-112 | two jobs whose texts differ only in letter case get the same detected terms, score and level |
| LanguageService.AzureLanguageBiasDetector.constructor | azure_language_service.py:40-52 | built only from a set, non-empty endpoint and key; taxonomy and replacements are the configured tables |
| LanguageService.AzureLanguageBiasDetector.AnalyzeSingleJob | azure_language_service.py:78-160 | the nested scanning loops compute exactly `Analysis` of the job and the sentiment the client returns |
| LanguageService.AzureLanguageBiasDetector.BatchAnalyze | azure_language_service.py:162-191 | one result per job, in input order, each the single-job analysis; fixed service name and note; no summary key |
| FairnessEngine.RateInUnitInterval | azure_ml_fairness_engine.py:70-72 | with 0/1 outcomes a non-empty group's rate lies in [0,1] |
| FairnessEngine.PartitionComplete | azure_ml_fairness_engine.py:66-68 | when every gender is "male" or "female", the two groups together hold every row |
| FairnessEngine.ComplianceRatio | azure_ml_fairness_engine.py:80 | min/max lies in [0,1] for non-negative rates, is strictly positive when both rates are, and equals 1 iff the two rates are equal |
| FairnessEngine.ComplianceRatioSymmetric | azure_ml_fairness_engine.py:80 | swapping the groups leaves the ratio unchanged |
| FairnessEngine.ComputeFairnessMetrics | azure_ml_fairness_engine.py:66-93 | rates are hires over group size, dpd = male - female with sign kept, ratio = lower/higher, passes iff ratio >= 0.8; with 0/1 outcomes rates and ratio lie in [0,1] and dpd in [-1,1] |
| FairnessEngine.RunAnalysis | azure_ml_fairness_engine.py:104-117 | the same metrics record stands under "baseline" and under "fair" |
| FairnessEngine.FourFifthsExamples | azure_ml_fairness_engine.py:90 | rates 0.6/0.5 pass, 0.7/0.5 fail, and a ratio of exactly 0.8 passes |
| FairnessEngine.ThresholdMatchesConfig | azure_ml_fairness_engine.py:90 | the calculator's hard-coded 0.8 is the configured EEOC threshold |
| Tally.BumpTally | visualization.py:442-445 | `d[k] = d.get(k, 0) + 1` keeps a dictionary that counts each item, keys in first-seen order |
| Tally.SortDescFacts | visualization.py:497-500 | sorting by count, descending, gives a non-increasing permutation that keeps equal counts in their original order |
| Tally.TopTenFacts | visualization.py:497-501 | the top list has min(n, 10) entries, non-increasing, all taken from the counts, and no omitted entry outranks a kept one |
| Visualization.ParityScore | visualization.py:278-280 | max(0, 100 - 500·abs(d)) lies in [0,100], is 100 iff d = 0 and 0 iff abs(d) >= 0.2 |
| Visualization.RadarScores | visualization.py:276-293 | four scores; parity and balance in [0,100]; overall <= EEOC score when the ratio is in [0,1]; parity = balance when dpd = male - female |
| Visualization.RadarOfComputedMetrics | visualization.py:276-293 | for metrics computed from 0/1 outcomes, all four scores lie in [0,100], parity = balance and overall <= EEOC |
| Visualization.FairnessRadar | visualization.py:276-311 | the baseline and mitigated traces are the radar scores of each record |
| Visualization.RadarShowsNoImprovement | visualization.py:276-311 | for the output of `run_analysis` the baseline and mitigated radar traces are identical |
| Visualization.BarColor | visualization.py:419-424 | danger iff score >= 50, warning iff 25 <= score < 50, success iff score < 25 |
| Visualization.Truncate | visualization.py:415 | `title[:20]`: the prefix of exactly min(len, 20) characters, the whole title when it is short |
| Visualization.FlattenedLengths | visualization.py:467-493 | the flattened category and term lists each have one entry per detected term |
| Visualization.CountLevels | visualization.py:442-445 | the level counter counts every result's level, each key once in first-seen order, and its counts sum to the number of results |
| Visualization.CountCategories | visualization.py:467-471 | the category counter counts every detected term's category, each key once, and its counts sum to the number of detected terms |
| Visualization.CountTerms | visualization.py:489-493 | the term counter counts every detected term, each key once, and its counts sum to the number of detected terms |
| Visualization.CreateLanguageBiasChart | visualization.py:386-501 | no chart for missing or result-less input; otherwise titles, scores, colours, level/category/term counts and the top ten, each as specified above |
| Visualization.LanguageChartDrawn | visualization.py:387-389 | the language chart is drawn iff the input is present and has results; this combines the guard at visualization.py:387-389 with the `if language_analysis:` test at visualization.py:573 |
| App.MissingColumns | app.py:236-237 | the missing required columns, listed in the order gender, hired |
| App.ValidateHiringCsv | app.py:230-254 | valid iff both columns, accepted genders, 0/1 outcomes and >= 50 rows; valid iff no message; otherwise the message of the first failing check in the order columns, gender, hired, size |
| App.BothColumnsMissingMessage | app.py:237-239 | with neither column the message is "Missing required columns: gender, hired" |
| App.CapitalisedGenderRejected | app.py:242-244 | a gender written "MALE" makes the table invalid |
| App.ValidatedTableFeedsCalculator | app.py:483-489 | a validated table, once its genders are lower-cased, has only "male"/"female" rows and 0/1 outcomes, and its two groups hold all of its >= 50 rows |
| App.OneGenderTableAccepted | app.py:240-253 | a table of at least 50 rows, all "male" with 0/1 outcomes, passes validation although its female group is empty, so validation does not guarantee `FairnessEngine.Computable` |
| App.InitialSlotsKeepsValues | app.py:192-213 | initialisation adds only session keys, sets added keys to None and keeps every present value except possibly the error slot |
| App.InitialSlotsResetError | app.py:207-209 | a missing detector slot resets both detector slots to None |
| App.InitialSlotsComplete | app.py:192-213 | every session key exists afterwards when the detector slots were paired, and pairing is preserved both ways |
| App.InitialSlotsIdempotent | app.py:192-213 | running initialisation again changes nothing |
| App.SessionState.InitSessionState | app.py:192-213 | the slots become `InitialSlots` of the old slots |
| App.SessionState.GetLanguageDetector | app.py:216-227 | untried: builds the detector when credentials are set, else stores the constructor's message and returns None; the new detector carries the configured taxonomy and replacement tables and the given endpoint and key; after success or failure the slots never change; always returns the detector slot |
| App.BoxClass | app.py:872-883 | error-box iff CRITICAL or HIGH, warning-box iff MEDIUM, success-box otherwise |
| App.BoxAgreesWithBarColor | app.py:872-883 | for every score, the result box and the chart's bar colour agree (error/danger, warning/warning, success/success) |
| Orchestrator.CountWithBias | main.py:155 | the number of results with bias is at most their count, 0 iff none has bias, the count iff all have bias |
| Orchestrator.SumScoresBounds | main.py:156-159 | scores in [0,100] sum to between 0 and 100 times their count |
| Orchestrator.AverageScore | main.py:156-159 | 0 for no results; otherwise the average times the count is the sum of the scores |
| Orchestrator.AverageScoreBounds | main.py:156-159 | an average of scores in [0,100] lies in [0,100] |
| Orchestrator.FallbackSummary | main.py:153-161 | total = number of results, jobs with bias <= total and 0 iff no result has bias, average as above, empty level table |
| Orchestrator.EnsureSummary | main.py:150-161 | adds the fallback summary only when none is present, and changes nothing else |
| Orchestrator.ExecutiveSummary | main.py:228-246 | reports the stored summary, or the fallback when there is none |
| Orchestrator.RunLanguageAnalysis | main.py:136-167 | one result per job, each the single-job analysis with score in [0,100]; service name, timestamp and note are those `batch_analyze` set; the stored summary is always the fallback, and the executive summary reports exactly it |
| Orchestrator.DpImprovementIsZero | main.py:219-220 | the reported bias reduction is always 0, because both records are the same computation |
| Orchestrator.VisualizationsNeedBoth | main.py:308-309 | charts are produced iff both analyses returned a result |

## Left out

- The Azure SDK calls are not modelled.
  - `TextAnalyticsClient` construction, `test_connection` and the `MLClient` workspace lookup are foreign network calls.
  - Sentiment analysis is a function value given to the detector. Its failure (an exception from the service) is not modelled.
- `save_analysis`, the JSON report written by `run_analysis` and the CSV written after upload are file I/O and are left out.
- `os.getenv`, `load_dotenv` and `create_directories` are left out. Environment values are the `Config.Environment` record and directory existence is the `Config.Directories` record.
- Timestamps (`datetime.now`) are parameters.
- The Streamlit UI and Plotly figure construction are presentation only and are left out.
  - On the UI side this covers CSS, widgets, page routing and download buttons.
  - On the Plotly side it covers figure construction, pie colours and `write_html`.
- The printing functions of `main.py` are console output and are left out.
  - They are the header, compliance, impact and next-steps text.
  - `check_prerequisites` is file-existence I/O and is left out with them.
- `generate_visualizations` and `generate_complete_report` are chart rendering and are not modelled beyond the rule for when they run.
- `data_generator.py` produces random data and writes files; it is not part of this model.
- Text.Lower: lower-cases only the ASCII letters A-Z, whereas Python's `str.lower` also lower-cases other Unicode letters. Taxonomy terms are ASCII, so only texts with non-ASCII capitals are affected.
- FairnessEngine.ComputeFairnessMetrics: requires both groups non-empty and a positive higher rate (`Computable`). The source's outcomes outside that case are not modelled. They depend on which group is missing, because Python's `min` and `max` keep their first argument when the comparison with NaN is false (azure_ml_fairness_engine.py:80):
  - no "female" rows and a positive male rate: the female rate is NaN, `min` and `max` both return the male rate, the ratio is 1.0 and `passes_eeoc_test` is True; the parity difference is NaN;
  - no "male" rows: the male rate is NaN, `min` and `max` both return NaN, the ratio is NaN and the test fails;
  - both rates 0, or an empty female group with male rate 0: 0/0 gives NaN and the test fails.
  - The upload validator does not require both genders, so the dashboard can reach these cases (`App.OneGenderTableAccepted`).
- Python floating point is not modelled. Rates and ratios are exact `real` values, not the rounded floats Python stores.
- LanguageService.AzureLanguageBiasDetector.constructor: the credential check is a precondition. `App.SessionState.GetLanguageDetector` models the failing branch by storing the constructor's message.
- App.Value: holds None, a message or the detector. The analysis results and the upload path that the dashboard pages store in the session later are page logic and are not modelled.
- Orchestrator.RunLanguageAnalysis: takes an already-built detector, so the exception-to-None path of `run_language_analysis` is not modelled. That path also catches the credentials error the constructor raises. `run_fairness_analysis` turns any exception into None in the same way, and it is not modelled either. `Orchestrator.VisualizationsNeedBoth` therefore takes both analysis outcomes as free `Option` values rather than deriving them from these functions.
- Orchestrator.EnsureSummary: the in-place insertion of the "summary" key into `batch_results` is a record update that returns the new batch value.
- Orchestrator.ExecutiveSummary: treats only a missing summary as absent.
  - Python's `if not summary` would also replace an empty summary dictionary.
  - A stored summary is never empty in this pipeline, so the case cannot arise.
- Missing dictionary keys are not modelled.
  - These are `job["title"]` raising on a malformed job, and the defaults of `r.get("bias_score", 0)` and `r.get("bias_detected")`.
  - Jobs and results are records, so their fields always exist.
- App.ValidateHiringCsv: cells are modelled as numbers, strings or missing values.
  - pandas `isin([0, 1])` also accepts the booleans True and False.
  - Booleans are not a cell kind here.
- Visualization.CreateLanguageBiasChart: the input dictionary's keys other than "results" are reduced to a count, since the chart reads only "results".
