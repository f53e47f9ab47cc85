# AO-Dashboard in Dafny

AO-Dashboard is a cybersecurity KPI dashboard. It reads a spreadsheet of vulnerability
findings. Each row carries an application owner ("AO"), an application, a department, a
severity, CVSS and risk scores, detection and closure dates, and a status. From those it
derives per-row flags: days open, critical/high, over 30 days, and high risk. It then serves
three kinds of output:

- **Dash dashboards** (`dashboard.py`, `dashboard_optimized.py`, `dashboard_simplified.py`,
  `enhanced_dashboard.py`). They filter the table by owner, department and status, and show
  KPI cards, an urgent-issues table, an owner comparison, a Sankey diagram, suggestion cards
  and a chatbot.
- **Two FastAPI suggestion services** (`suggestion_api.py`, `api_optimized.py`). They compute
  an owner's metrics and check ten "suggestion templates" against them. They rank the
  applicable suggestions by the cosine similarity of a sentence model and answer chatbot
  queries from a small knowledge base.
- **A rule-based fallback** (`model_integration.py`), a training-data generator
  (`train_model.py`), and the browser-side helpers of `assets/js/dashboard.js`: a response
  cache, a performance monitor, keyboard shortcuts and a theme manager.

The model follows the program's structure, one module per source file plus shared modules:

| module | models |
|---|---|
| `Table` | a spreadsheet row, its derived columns, pandas masks, counts, means, `unique()` |
| `OwnerMetrics` | `app_metrics`, worst application (`max` with a tuple key) and best application |
| `Sorting` | Python's stable `sort`/`sorted` with a key, `reverse=True`, string sorting, slicing |
| `TemplateBank` | a loop over a template bank keeping the entries whose condition holds |
| `Text` | `in` on strings, `lower()`, `strip()` |
| `NumpyValues` | `convert_numpy_types` |
| `Filters` | the department dropdown callbacks |
| `ApiOptimized`, `SuggestionApi` | the two suggestion services |
| `DashboardClassic`, `DashboardOptimized`, `DashboardSimplified`, `EnhancedDashboard` | the four dashboards |
| `ModelIntegration` | the rule-based suggestions and the keyword chatbot |
| `TrainModel` | model loading with retries, and the generation of training pairs |
| `ClientState` | `DataManager`, `PerformanceMonitor`, `KeyboardShortcuts`, `ThemeManager` |
| `DashboardScript` | whether `assets/js/dashboard.js` loads: its top-level declarations |

The code is modelled in the form it has:

- State the JavaScript classes or the services' module globals update in place becomes a
  Dafny `class` with `modifies` clauses: the data cache, the monitor, the shortcut table,
  the theme manager and the model registry.
- Loops that build lists become methods with loop invariants. Each is proved equal to a
  specification function.
- The rest are functions, together with lemmas about those functions.

A missing number (pandas NaN) is `None`, and every comparison with it is false, as in pandas.
The sentence model, the clock, the network and the spreadsheet reader are outside the model;
what they deliver is passed in as a parameter. Throughout, "the source" means the repository
file in the second column of the table below.

## Model

| member | source | states |
|---|---|---|
| Table.AddDerivedColumns | api_optimized.py:93-102 | Fills the derived columns of every row in place, leaving the spreadsheet values alone. Each row then satisfies the definitions: days open is days to close for a closed finding, else days since detection. Critical/high is severity Critical or High; over 30 is days open > 30 (false for NaN). Critical/high over 30 is the conjunction; high risk is CVSS > 7 or risk > 7. The table is consistent afterwards. |
| Table.NewTable | api_optimized.py:90 | A fresh array holding the spreadsheet records in order. |
| Table.UrgencyClasses | dashboard_optimized.py:55-57 | The urgency level after the three writes is Urgent exactly for critical/high over 30 days. It is High exactly for high risk that is not that, and Normal otherwise: the three levels partition the rows. |
| Table.AddUrgencyColumn | enhanced_dashboard.py:54-56 | The column written in place holds, row by row, the level `UrgencyOf` defines. |
| Table.CountDisjointUnion | model_integration.py:165-172 | Two disjoint masks count together the rows of their union, as the Critical and High counts do. |
| Table.FilterPreservesDerived | dashboard_optimized.py:614-620 | Filtering a consistent table by any mask keeps every row consistent. |
| Table.CountPositive | dashboard_optimized.py:622-623 | `len(df[mask]) > 0` exactly when some row satisfies the mask. |
| Table.Distinct | suggestion_api.py:159 | `unique()`: the same values, each once, no more than the input. |
| Table.DistinctFirstAppearance | suggestion_api.py:159 | `unique()` lists values in the order of their first appearance in the input. |
| Table.PercentBounds | enhanced_dashboard.py:495 | `part / total * 100` lies in [0, 100] whenever part ≤ total. |
| OwnerMetrics.AppTableCoversRows | api_optimized.py:308-315 | `app_metrics` has exactly one entry per application of the owner's rows, and no other. The entries follow the order in which the applications first appear in the owner's rows, so the first of equal `max` keys is the application seen first. |
| OwnerMetrics.BuildAppMetrics | api_optimized.py:308-315 | The loop filling `app_metrics` produces the specified table. |
| OwnerMetrics.WorstIndexIsFirstMaximum | api_optimized.py:318-323 | `max` with key (critical/high count, mean days) returns an entry no other entry beats, and the first of equal keys. A NaN mean compares false, as in Python. |
| OwnerMetrics.WorstApp | api_optimized.py:318-323 | A worst application exists exactly when the owner has an application, and it is a first maximum. |
| OwnerMetrics.BestApp | api_optimized.py:325-331 | No best application exactly when none has zero critical/high findings and a mean below the department mean. Otherwise it is the first that does. |
| OwnerMetrics.AppCountsPartitionOwnerCount | api_optimized.py:293-315 | The per-application critical/high counts add up to the owner's critical/high count. |
| NumpyValues.Convert | api_optimized.py:139-152 | The result contains no numpy value anywhere, and a native value is returned unchanged. Numpy integers and floats become `int`/`float`; arrays become lists of the same length. Lists and dictionaries keep their length and key order. |
| NumpyValues.ConvertItems | api_optimized.py:150 | Each list item is converted in place of itself, position by position. |
| NumpyValues.ConvertEntries | api_optimized.py:148 | Each dictionary keeps its key and has its value converted. |
| TemplateBank.SelectedSpec | api_optimized.py:345-358 | The loop over the template bank keeps exactly the templates whose condition holds, each once, in bank order. |
| Text.FindFrom | assets/js/dashboard.js:345 | A left-to-right search finds the pattern exactly when it occurs from the starting position on. |
| Text.Includes | assets/js/dashboard.js:404 | `includes`/`in` holds exactly when the pattern occurs in the string. |
| Text.Lower | model_integration.py:127 | `lower()` keeps the length and lower-cases each character. |
| Text.LowerIdempotent | model_integration.py:127 | Lower-casing twice is lower-casing once. |
| Sorting.Sort | api_optimized.py:387-389 | A stable insertion sort; the result is a permutation of the input. |
| Sorting.SortIsSorted | api_optimized.py:387-389 | For a strict weak order, no element of the result comes strictly before an earlier one. |
| Sorting.SortIsStable | api_optimized.py:387-389 | Elements tied under the order keep their relative order, as Python's sort guarantees. |
| Sorting.SortByKeyDescSpec | api_optimized.py:480 | `sort(key=..., reverse=True)` is a permutation, non-increasing in the key, and keeps equal keys in input order. |
| Sorting.SortStringsSpec | dashboard_optimized.py:576 | `sorted` on strings gives the same strings in ascending order. |
| Sorting.PrefixSlice | api_optimized.py:407 | `s[:n]` is a prefix of `s` of length min(n, len(s)), and for negative n it counts from the end. |
| Sorting.PrefixMultiset | api_optimized.py:481 | A slice holds no element more often than the list it was cut from. |
| Sorting.TopKeys | api_optimized.py:480-481 | `sorted(xs, key, reverse=True)[:n]` has min(n, len) elements, non-increasing in the key, drawn from the input. |
| Sorting.TopKeysMaximal | api_optimized.py:480-481 | The same prefix keeps the largest keys: no element left out has a larger key than one kept. |
| Sorting.DescendingPrefixMaximal | api_optimized.py:481 | In a list non-increasing in the key, nothing after the first m elements has a larger key than they do. |
| Filters.OwnersDeptsSpec | dashboard_optimized.py:575-576 | The departments offered are exactly those of rows of the selected owners, each once. |
| Filters.DeptOptions | dashboard_optimized.py:575-576 | The options are exactly those departments, in strictly ascending order. |
| Filters.DeptDropdownSingleOwner | dashboard_optimized.py:569-585 | No selection gives no options and no values. Otherwise the options are the sorted departments; the values are all of them for exactly one owner and none for several. |
| Filters.DeptDropdownPreselectAll | enhanced_dashboard.py:427-438 | An empty selection leaves the dropdown unchanged. Otherwise the options are the sorted departments and every one of them is preselected, each once. |
| ApiOptimized.DataCache.constructor | api_optimized.py:60-63 | The cache starts empty, without a timestamp. |
| ApiOptimized.DataCache.LoadData | api_optimized.py:75-113 | Within 300 seconds of the last load the cached table is returned and nothing changes. Otherwise a failed read is 500 and leaves the cache alone. A successful read stores the table with its derived columns, stamped now, and stays fresh for the next 300 seconds. |
| ApiOptimized.CalculateMetricsForAo | api_optimized.py:279-333 | The metrics loop computes the specified metrics, or 404. |
| ApiOptimized.MetricsNotFoundIffNoRows | api_optimized.py:286-287 | 404 is raised exactly for an owner without rows, and only with status 404. |
| ApiOptimized.DeptAvgIndependentOfOwner | api_optimized.py:300 | The department average is the same for every owner: it is taken over the whole table. |
| ApiOptimized.MetricsForSpec | api_optimized.py:293-331 | The owner's critical/high count is the sum over their applications, and each count is at most the number of rows. A worst application is always present and is a first maximum. `best_app` is present exactly when some application qualifies. |
| ApiOptimized.UnscoredAll | api_optimized.py:349-355 | One unscored suggestion per selected template, in order. |
| ApiOptimized.CollectCandidates | api_optimized.py:344-358 | The template loop produces the specified candidate list. |
| ApiOptimized.CandidatesSpec | api_optimized.py:344-358 | The candidates are exactly the applicable templates, once each, in bank order, each with its priority and weight. |
| ApiOptimized.ExcellenceCondition | api_optimized.py:204-207 | The "[EXCELLENCE]" template applies exactly when `best_app` is present. |
| ApiOptimized.ExcellenceIffBestAppExists | api_optimized.py:325-331 | "[EXCELLENCE]" is offered exactly when some application has no critical/high finding and a mean below the department mean. |
| ApiOptimized.Rescore | api_optimized.py:383-384 | Every suggestion keeps its place and gets the similarity of its text. |
| ApiOptimized.RankSpec | api_optimized.py:361-395 | With scores, the result is a permutation of the rescored candidates: non-increasing in relevance × weight and stable. If scoring raises, it is a stable permutation by weight. Without a model the order is unchanged. |
| ApiOptimized.TopSuggestions | api_optimized.py:407 | At most five suggestions, a prefix of the ranked list. |
| ApiOptimized.RankCandidates | api_optimized.py:361-407 | Scoring, sorting and truncation produce the specified top suggestions. |
| ApiOptimized.GenerateSuggestionsForAoAsWritten | api_optimized.py:335-417 | As written: an owner without rows gets 500, not 404. Otherwise the metrics and the top suggestions. |
| ApiOptimized.GenerateSuggestionsForAo | api_optimized.py:335-417 | With the 404 passed through, the handler returns the specified outcome. |
| ApiOptimized.UnknownOwnerStatus | api_optimized.py:286-287 | The corrected handler answers 404 for an owner without rows. |
| ApiOptimized.NamedOwners | api_optimized.py:467-470 | The owners named in the request: never more than the entries. |
| ApiOptimized.Outcomes | api_optimized.py:467-477 | One outcome per named owner, in request order. |
| ApiOptimized.MergeEntry | api_optimized.py:467-477 | An entry without `ao_id` leaves the merge alone. A successful one appends its suggestions; a failing one makes the merge fail. |
| ApiOptimized.MergeOwnerSuggestions | api_optimized.py:458-498 | The request loop computes the merge of the per-owner outcomes, then the sort and the cut. |
| ApiOptimized.GetMultipleSuggestions | api_optimized.py:458-498 | `get_multiple_suggestions` returns the specified merged response. |
| ApiOptimized.TopTenByRelevance | api_optimized.py:480-481 | At most ten suggestions, non-increasing in relevance, drawn from the merged list. |
| ApiOptimized.TopTenMaximal | api_optimized.py:480-481 | No suggestion left out of the top ten is more relevant than one kept. |
| ApiOptimized.MultiSpec | api_optimized.py:480-496 | The reply has at most ten suggestions, sorted by relevance, drawn from the per-owner lists, none left out more relevant than one returned, and counts every owner processed. |
| ApiOptimized.MergeFailsIffSomeOwnerFails | api_optimized.py:474-498 | The request fails exactly when some owner's generation failed, and then with 500. |
| ApiOptimized.ChatbotQuery | api_optimized.py:537-584 | 503 without a model and 500 when scoring raises. Otherwise the answer is the first entry of maximal score when that score exceeds 0.3, with that score as confidence. Failing that, the fallback with confidence 0, and then every score is at most 0.3. |
| SuggestionApi.CalculateMetrics | suggestion_api.py:151-199 | The metrics block computes the specified metrics. |
| SuggestionApi.CollectTemplates | suggestion_api.py:213-224 | The template loop keeps the applicable templates, in bank order. |
| SuggestionApi.GenerateSuggestionsForAo | suggestion_api.py:137-250 | The handler returns the specified outcome: an error text, or the metrics with the ranked suggestions. |
| SuggestionApi.ErrorOrder | suggestion_api.py:138-146 | "temporarily unavailable" exactly when there is no model. "No data" exactly when there is a model but the owner has no rows. |
| SuggestionApi.CandidatesSpec | suggestion_api.py:213-224 | Exactly the applicable templates are candidates, once each, in bank order, and the always-true template is among them. |
| SuggestionApi.TopFiveByRelevance | suggestion_api.py:239-244 | A non-empty candidate list gives one to five suggestions, non-increasing in relevance, drawn from the candidates. |
| SuggestionApi.TopFiveMaximal | suggestion_api.py:239-244 | No candidate left out of the top five is more relevant than one kept. |
| SuggestionApi.RankedSpec | suggestion_api.py:213-244 | Every owner with rows gets one to five suggestions, sorted by relevance, drawn from the scored candidates; no scored candidate left out is more relevant than one returned. |
| SuggestionApi.BestAppKeySpec | suggestion_api.py:176-199 | `best_app` is a key exactly when a first qualifying application exists and its name is not empty (`if best_app:`). |
| SuggestionApi.GetSuggestions | suggestion_api.py:261-272 | 404 exactly for an owner not in the table; 500 for an error text; otherwise the body. |
| SuggestionApi.EndpointNeverSeesNoData | suggestion_api.py:261-272 | Behind the 404 check the "no data" error cannot occur: the endpoint fails exactly when the model is missing or scoring failed. |
| DashboardClassic.FormatTemplates | dashboard.py:91-103 | Eight entries: each template filled in when formatting succeeds, else the raw template. |
| DashboardClassic.BySimilarityIsStrictWeakOrder | dashboard.py:115 | Ascending similarity is a strict weak order, so the stable `argsort` is well defined. |
| DashboardClassic.TopThreeSpec | dashboard.py:115-116 | `argsort()[-3:][::-1]` picks three different templates in non-increasing similarity. |
| DashboardClassic.TopThreeMaximal | dashboard.py:115-116 | No template left out is more similar than any of the three chosen. |
| DashboardClassic.LastThreeMaximal | dashboard.py:115-116 | In any order sorted by ascending similarity, no element outside the last three is more similar than one of them. |
| DashboardClassic.GenerateSuggestions | dashboard.py:51-121 | "temporarily unavailable" exactly without a model. "No data" exactly for an owner without rows. Otherwise the three chosen entries, in order. |
| DashboardClassic.ChartRowsSpec | dashboard.py:333-343 | A row is shown exactly when it meets each control that holds a value. |
| DashboardClassic.UrgentRowsAreNotNormal | dashboard.py:443-446 | The urgent table holds exactly the filtered rows whose urgency level is not Normal. |
| DashboardOptimized.FilteredSpec | dashboard_optimized.py:614-620 | A row is kept exactly when its owner and status are selected and, if departments are selected, its department too. |
| DashboardOptimized.KpiCardsSpec | dashboard_optimized.py:595-639 | The prompt appears exactly when no owner or no status is selected, and "no data" exactly when nothing matches. Otherwise the counts obey urgent ≤ critical/high ≤ total and open ≤ total, and the trend is 0 without earlier months. |
| DashboardOptimized.DeltaStyleOf | dashboard_optimized.py:109-121 | No style without a delta; red rising for a positive delta, green falling for a negative one, grey for zero. |
| DashboardOptimized.UrgentOrderIsStrictWeakOrder | dashboard_optimized.py:896 | Descending (CVSS, risk, days open) with NaN days last is a strict weak order. |
| DashboardOptimized.UrgentTableRowsSelected | dashboard_optimized.py:886-893 | Every shown row belongs to a selected owner and status (and department, when any). It is critical/high over 30 days, or has CVSS > 8 or risk > 8. |
| DashboardOptimized.UrgentTableSpec | dashboard_optimized.py:896-902 | At most twenty rows, in non-increasing urgency order, from the front of a permutation of the candidates. No row left out ranks above a shown one. |
| DashboardOptimized.BuildSummaries | dashboard_optimized.py:929-944 | The loop builds the specified list of owner summaries. |
| DashboardOptimized.SummariesSpec | dashboard_optimized.py:929-944 | Each summary belongs to a selected owner with rows, and its counts are within its total. Every selected owner with rows has one. |
| DashboardOptimized.CardTexts | dashboard_optimized.py:972 | Each card shows its suggestion's `text`, else its `template`, else the fixed note. |
| DashboardOptimized.SuggestionPanelSpec | dashboard_optimized.py:955-972 | Insights come only from an answered call. There are one to five of them, the first suggestions of the reply, in order. "No suggestions" exactly when the reply has none. |
| DashboardOptimized.ChatRequestOf | dashboard_optimized.py:1057-1060 | The request carries the question, and the first selected owner exactly when one is selected. |
| DashboardOptimized.ConfidenceColour | dashboard_optimized.py:1078-1081 | A missing confidence counts as 0.8. Green above 0.8, amber above 0.6, red otherwise. |
| DashboardOptimized.ChatbotPanel | dashboard_optimized.py:1045-1081 | The greeting exactly without a click or input. Otherwise a failed call shows its error message; an answered call with a missing or empty response shows the apology; and a non-empty response is shown as is, coloured by `ConfidenceColour` of its confidence (amber when missing). |
| DashboardSimplified.KpiRowsSpec | dashboard_simplified.py:417-430 | A row is counted exactly when it meets the owner, department (when any) and status selections. |
| DashboardSimplified.KpiCardsSpec | dashboard_simplified.py:417-437 | The prompt exactly without owners or statuses. Counts are bounded by the total. The urgent count covers every critical/high row over 30 days, and the CVSS count only rows flagged high risk. |
| DashboardSimplified.BadgeFor | dashboard_simplified.py:327-331 | High is danger, Medium warning, anything else info. |
| DashboardSimplified.SuggestionPanelAsWrittenAlwaysFails | dashboard_simplified.py:311-319 | As written, every selection of owners ends in the error alert, whether or not the model loads. |
| DashboardSimplified.BadgesOfRuleCards | dashboard_simplified.py:324-340 | One card per rule card, badged danger for the critical/high and CVSS rules and warning for the days-open and open-status rules. |
| DashboardSimplified.SuggestionPanelSpec | dashboard_simplified.py:311-360 | With the uncached method, the prompt appears exactly without owners. The error alert appears exactly when owners are selected and `get_model_instance` raises (model_integration.py:42-44, 217-234). With a loaded model lacking the Days_Open column, the panel holds the single info card. |
| DashboardSimplified.FiredRulesNote | dashboard_simplified.py:320-323 | The panel of the fired rules shows the note exactly when no rule fires. |
| DashboardSimplified.FiredRulesCards | dashboard_simplified.py:324-340 | Otherwise it holds at most one card per rule, each for a fired rule, badged by the rule's priority. |
| DashboardSimplified.SuggestionPanelRulesSpec | dashboard_simplified.py:311-360 | With a loaded model that has the Days_Open column, the panel shows the note exactly when no rule fires on the selected rows. Otherwise it shows at most four cards of fired rules, correctly badged. |
| DashboardSimplified.HandleChatbotSpec | dashboard_simplified.py:374-409 | The greeting comes before any submission, and a prompt for a missing or blank message. A real question gets the error reply exactly when `get_model_instance` raises, and an answer exactly when it returns. A vulnerability question is answered with Critical and High counts that together cover the selected rows' critical/high findings; without owners it gets no counts. |
| EnhancedDashboard.FilteredSpec | enhanced_dashboard.py:461-471 | A row survives exactly when it meets every non-empty selection. |
| EnhancedDashboard.PercentAboveHalf | enhanced_dashboard.py:494-517 | The open percentage exceeds 50 exactly when more than half the rows are open. |
| EnhancedDashboard.KpiCardsSpec | enhanced_dashboard.py:493-560 | Counts are bounded by the selection and the percentages lie in [0, 100]. Every card colour follows its threshold: open above 50 %, critical/high present, days above 30, CVSS/risk above 7 and 5. |
| EnhancedDashboard.OwnerMissingSpec | enhanced_dashboard.py:748-750 | The comparison raises for an owner exactly when no row of the table carries that owner's id. |
| EnhancedDashboard.BuildComparison | enhanced_dashboard.py:739-768 | The loop builds the specified comparison table. |
| EnhancedDashboard.ComparisonSpec | enhanced_dashboard.py:739-768 | It fails exactly for an empty table or a selected owner without rows. Otherwise there is one entry per owner, in order, named after one of their rows. Percentages lie in [0, 100], and each delta is the owner's figure minus the organisation's. |
| EnhancedDashboard.SoleOwnerIsLevel | enhanced_dashboard.py:740-766 | An owner of every row is level with the organisation: every delta is zero (or NaN for days). |
| EnhancedDashboard.SankeyMappings | enhanced_dashboard.py:857-863 | The Sankey rows are exactly the projections that meet the non-empty owner and department selections. |
| EnhancedDashboard.NodesOfMapping | enhanced_dashboard.py:866-880 | Each mapping row's owner, application and department are among the nodes. |
| EnhancedDashboard.LinkOwnersToApps | enhanced_dashboard.py:883-890 | One link per mapping row, from the row's owner node to its application node. |
| EnhancedDashboard.LinkAppsToDepts | enhanced_dashboard.py:892-899 | One link per mapping row, from the row's application node to its department node. |
| EnhancedDashboard.BuildLinks | enhanced_dashboard.py:880-901 | The labels are owners, then applications, then departments. There are two links per row: the owner-to-application ones first, then the application-to-department ones. |
| EnhancedDashboard.LinksConnectRowNodes | enhanced_dashboard.py:880-901 | Over `all_labels` the links of a row join its owner's label to its application's label, and that to its department's. |
| EnhancedDashboard.DashboardViewSpec | enhanced_dashboard.py:459-1000 | "No data" exactly when no row meets the selections. Otherwise the whole callback raises, updating nothing, exactly when a selected owner has no row (`.iloc[0]`, lines 704-705 and 749-750). A shown view has the comparison exactly when owners are selected, and its Sankey rows are the selected projections. |
| EnhancedDashboard.AlertFor | enhanced_dashboard.py:1036-1053 | urgent is danger, medium warning, anything else success. |
| EnhancedDashboard.Cards | enhanced_dashboard.py:1031-1053 | One card per suggestion, styled by its priority. |
| EnhancedDashboard.SuggestionSections | enhanced_dashboard.py:1017-1110 | The loop gives one section per selected owner, in order. |
| EnhancedDashboard.SectionForSpec | enhanced_dashboard.py:1017-1110 | Cards come exactly from a 200 reply, one per suggestion, and "urgent" gets danger. Any other status is shown as such. When the request raised, the section shows the owner's name from a row of theirs, or the id when they have none. |
| ModelIntegration.OwnerIds | model_integration.py:50-51 | A string becomes a one-element list; a list stays. |
| ModelIntegration.DeptFilter | model_integration.py:52-59 | No department filter exactly for none, an empty string or an empty list. Otherwise a non-empty list. |
| ModelIntegration.SelectionSpec | model_integration.py:55-59 | A row is selected exactly when its owner is listed and, when a department filter applies, its department too. |
| ModelIntegration.CardsOf | model_integration.py:64-108 | One card per fired rule, in order. |
| ModelIntegration.RuleStep | model_integration.py:64-108 | One rule check appends that rule's card exactly when the rule fires. |
| ModelIntegration.ApplyRules | model_integration.py:64-108 | The four rule checks produce the cards of every fired rule, in rule order. |
| ModelIntegration.GenerateSuggestions | model_integration.py:47-121 | The uncached body returns the specified cards. |
| ModelIntegration.FiredCardsSpec | model_integration.py:64-108 | Each card counts a non-empty subset, once, in rule order, and every fired rule has one. |
| ModelIntegration.SuggestionsSpec | model_integration.py:47-121 | Without Days_Open, the single error card of priority "Low". Otherwise a prefix of the fired rules' cards, at most `max_suggestions` of them, and all of them with the default bound. |
| ModelIntegration.GenerateSuggestionsCachedAsWritten | model_integration.py:46-47 | Behind `lru_cache` the call raises `TypeError` exactly when an argument is a list. |
| ModelIntegration.CachedListSelectionNeverReachesRules | model_integration.py:46-47 | A list of owners never reaches the rules, even when a rule would fire. |
| ModelIntegration.VulnerabilityReply | model_integration.py:165-181 | The general overview exactly without context. |
| ModelIntegration.ChatbotDispatchSpec | model_integration.py:123-147 | Each reply is chosen exactly when its keyword group matches the lower-cased message and no earlier group does. The apology is never chosen for a string. |
| ModelIntegration.ChatbotIgnoresCase | model_integration.py:127-147 | A message and its lower-cased form get the same reply. |
| ModelIntegration.VulnerabilityCountsSplitCriticalHigh | model_integration.py:165-174 | The Critical and High counts of the reply add up to the critical/high rows. |
| ModelIntegration.Integration.constructor | model_integration.py:23-44 | The integration holds the spreadsheet it read. |
| ModelIntegration.Registry.constructor | model_integration.py:214 | No instance at start. |
| ModelIntegration.Registry.GetModelInstance | model_integration.py:217-222 | The first successful call constructs the instance; later calls return the same one. |
| ModelIntegration.SameInstanceTwice | model_integration.py:217-222 | Two calls after a successful construction return the same object. |
| TrainModel.LoadModelSafely | train_model.py:73-113 | A usable cache is loaded without downloading. Otherwise it downloads up to five times and returns the first success, saved to the cache directory when there is one. A failure other than rate limiting is re-raised on the last attempt and otherwise retried at once, without sleeping. An error whose text contains "429" sleeps the capped exponential back-off (1, 2, 4, … seconds, at most 60), also after the last attempt; rate limiting on the last attempt then gives up. |
| TrainModel.LoadOutcomes | train_model.py:85-113 | Loading fails exactly when no attempt downloads and there is no usable cache. |
| TrainModel.BackoffDoubles | train_model.py:102-103 | Within the retry budget the delay is 2^attempt, never above 16 seconds, so the 60-second cap never applies. |
| TrainModel.SleepsBelow | train_model.py:100-106 | Each of the first n sleeps stays below 2^n seconds and never exceeds 16. |
| TrainModel.SleepsSumBelow | train_model.py:100-106 | The first n sleeps together stay below 2^n seconds. |
| TrainModel.AllSleepsBounded | train_model.py:85-111 | Every sleep is at most 16 seconds and all of them together at most 31. |
| TrainModel.Pair | train_model.py:159-202 | One pair for the suggestion when its condition holds, else none. |
| TrainModel.OwnerExamplesSpec | train_model.py:159-202 | Each suggestion is paired exactly when its threshold is passed (more than 3 critical/high, more than 5 open, mean above 30 days, some high-risk item, no critical/high). The two critical/high pairs exclude each other, and the training pair is always there. |
| TrainModel.OwnerExamplesLabels | train_model.py:159-202 | Every pair is about the owner; relevant pairs are labelled 1.0, the unrelated one 0.2 and the training one 0.6. |
| TrainModel.OwnerExamplesShape | train_model.py:159-202 | One to five pairs per owner, the training pair last and the only one labelled 0.6. |
| TrainModel.Owners | train_model.py:134 | The owners of the table, each once, and each with rows. |
| TrainModel.CreateTrainingExamples | train_model.py:118-204 | Exits exactly when the base model failed to load. Otherwise it returns the pairs of every owner, in order. |
| TrainModel.ExamplesForCount | train_model.py:136-202 | Between one and five pairs per owner, one of them labelled 0.6. |
| TrainModel.ExamplesForOwners | train_model.py:136-202 | Every pair is about a listed owner. |
| TrainModel.TrainingExamplesSpec | train_model.py:118-204 | Over the table: between #owners and 5 × #owners pairs, #owners of them labelled 0.6, all about owners of the table. |
| ClientState.DataManager.constructor | assets/js/dashboard.js:294-298 | Both maps start empty. |
| ClientState.DataManager.FetchData | assets/js/dashboard.js:300-331 | A valid cached entry for `url + options` is returned untouched. Otherwise an ok response is stored with expiry now + 5 minutes and returned. A failure is thrown and leaves the cache alone. |
| ClientState.DataManager.ClearCache | assets/js/dashboard.js:338-341 | Both maps become empty. |
| ClientState.DataManager.InvalidateCache | assets/js/dashboard.js:343-350 | Exactly the keys containing the pattern leave both maps; the others keep their values and expiries. |
| ClientState.FetchTwice | assets/js/dashboard.js:300-336 | A value fetched at one moment is served from the cache for the next five minutes, whatever the network says. |
| ClientState.PushedSpec | assets/js/dashboard.js:378-390 | The memory window never exceeds 50 samples, holds the newest last and drops only the oldest. |
| ClientState.Average | assets/js/dashboard.js:417-423 | 0 without samples. |
| ClientState.AverageBounds | assets/js/dashboard.js:417-423 | An average lies between the smallest and the largest sample. |
| ClientState.PerformanceMonitor.constructor | assets/js/dashboard.js:358-368 | Zero load time, the start time, and no samples or timers. |
| ClientState.PerformanceMonitor.OnLoad | assets/js/dashboard.js:372-375 | The page load time is the time since start. |
| ClientState.PerformanceMonitor.SampleMemory | assets/js/dashboard.js:378-390 | The sample joins the window, capped at 50. |
| ClientState.PerformanceMonitor.StartTimer | assets/js/dashboard.js:394-397 | The timer's start is (re)set to now. |
| ClientState.PerformanceMonitor.EndTimer | assets/js/dashboard.js:399-414 | An unknown timer gives 0 and changes nothing. A known one gives the elapsed time and is removed. The time is recorded as a render time when the name contains "render", else as an API time when it contains "api". |
| ClientState.PerformanceMonitor.GetReport | assets/js/dashboard.js:416-433 | The report's totals are the sample counts, and its averages are the averages of the samples. |
| ClientState.KeyStringParts | assets/js/dashboard.js:581-588 | The key string is `ctrl+`, `alt+`, `shift+` for the modifiers held, in that order, followed by the lower-cased key. |
| ClientState.ModifierPrefixDecodes | assets/js/dashboard.js:581-588 | The modifiers held can be read back from the prefix. |
| ClientState.KeyStringInjective | assets/js/dashboard.js:568-588 | Two presses of keys without "+" give the same string only with the same modifiers and the same lower-cased key, so they reach the same handler. |
| ClientState.Remove | assets/js/dashboard.js:595-597 | Removing a key keeps every other key and no duplicates. |
| ClientState.KeyboardShortcuts.constructor | assets/js/dashboard.js:564-567 | No shortcuts. |
| ClientState.KeyboardShortcuts.Register | assets/js/dashboard.js:590-593 | The key maps to the handler. A new key goes last in registration order; a known one keeps its place. |
| ClientState.KeyboardShortcuts.Unregister | assets/js/dashboard.js:595-597 | The key leaves the map and the order. |
| ClientState.KeyboardShortcuts.GetRegisteredShortcuts | assets/js/dashboard.js:599-601 | The keys in registration order (`Map` insertion order): every registered key once, nothing else. |
| ClientState.NextThemeSpec | assets/js/dashboard.js:647-651 | light → dark → auto → light, and an unknown theme (index −1) goes to light. |
| ClientState.NextThemeCycles | assets/js/dashboard.js:647-651 | Every toggle lands on a known theme, and three toggles come back. |
| ClientState.ThemeManager.constructor | assets/js/dashboard.js:609-615 | The saved theme, or light when nothing or an empty string is saved, is applied and stored at once. |
| ClientState.ThemeManager.ApplyTheme | assets/js/dashboard.js:627-645 | The theme becomes current and stored. Light and dark set the attribute to themselves, auto to the preferred scheme; an unknown theme leaves it as it was. |
| ClientState.ThemeManager.ToggleTheme | assets/js/dashboard.js:647-652 | The next theme in the cycle is applied: it becomes current and stored, and the attribute is the one `applyTheme` sets for it (for auto, the preferred scheme). The attribute is always set afterwards. |
| DashboardScript.AsWrittenHasEarlyError | assets/js/dashboard.js:357 | As written, `PerformanceMonitor` is declared twice at top level (lines 357 and 1124), which is an early error that stops the whole script. |
| DashboardScript.Corrected | assets/js/dashboard.js:1124-1212 | The corrected script drops the second `PerformanceMonitor` declaration and changes nothing else. |
| DashboardScript.CorrectedLoads | assets/js/dashboard.js:10-1212 | With one monitor class, every top-level name is declared once, so the script loads. |
| DashboardScript.NoDuplicatesAcross | assets/js/dashboard.js:10-1212 | Capitalised class names around the lower-case instance names cannot clash with them. |
| ClientState.ThemeManager.OnSchemeChange | assets/js/dashboard.js:617-623 | Only the auto theme follows a change of the preferred scheme; otherwise nothing changes. |

## Left out

- The sentence model, `cosine_similarity` and `encode` are not modelled. Their results enter as
  a `Scoring` parameter: no model, scoring raised, or a similarity per template.
- Reading the spreadsheet, the clock (`datetime.now()`, `performance.now()`, `Date.now()`),
  sleeping, HTTP requests and `fetch` are parameters. Their effects are modelled, their timing
  is not.
- Suggestion and chatbot texts are identified by template or reply kind. The f-string
  formatting, number formatting and HTML/Dash layout are not modelled, nor are the Plotly
  figures (severity, status, score and days charts, heat maps, risk clusters).
- `dashboard.py` formats a template with `str.format`. Whether formatting raises is a
  `formats` parameter of `DashboardClassic.FormatTemplates`; the formatted text is not
  modelled.
- numpy's `argsort` uses quicksort by default, which is not stable. `DashboardClassic`
  models it as a stable sort; with equal similarities the source may choose differently.
- The enhanced department dropdown reads the `ao_app_dept` projection. Its departments are
  those of rows of the selected owners, which is how `Filters.DeptDropdownPreselectAll`
  states them.
- Sankey node labels are (id, name) pairs. Two owners or applications whose formatted labels
  collide are not modelled, and the index lookups of the source assume distinct labels.
- The enhanced dashboard's urgent table, risk charts and export callbacks are not modelled.
  Nor is the optimized dashboard's chart callback, or the CSV exports of any dashboard: they
  only reformat the filtered rows.
- `EnhancedDashboard.SectionForSpec`: a 200 reply whose JSON lacks `suggestions` or a
  suggestion's `text`/`priority` raises a `KeyError`. That lands in the same `except` branch as
  a connection error, and the model does not distinguish it.
- `DashboardSimplified.HandleChatbot` and `DashboardSimplified.SuggestionPanel` take the outcome
  of `get_model_instance` as a parameter, None when loading the sentence model or the
  spreadsheet raises. The text of the exception in the error reply is not modelled. The
  rule-based chatbot catches its own exceptions, so the load failure is the only way into
  `handle_chatbot`'s `except`.
- As written, `assets/js/dashboard.js` does not load at all: it declares `PerformanceMonitor`
  twice (see "## Findings"). `ClientState` models its classes as they would behave in the
  corrected script, which keeps only the first monitor class. The fetch interceptor, render
  observer and error tracking of the second class are not modelled.
- DOM updates, notifications, tooltips, animations, auto-save, full-screen mode, periodic
  refresh, WebSockets and console output of `assets/js/dashboard.js` are not modelled.
- `ClientState.DataManager.FetchData`: the request timeout option and `JSON.stringify` of the
  options are not modelled. The options arrive already serialised, as a string.
- `Text.Lower` lower-cases ASCII letters only; `toLowerCase`/`lower()` also fold other
  Unicode letters.
- The `timers` map of the monitor is created lazily by `startTimer`. The model starts it as
  an empty map, which `endTimer` treats the same way.
- `check_install_package` and `model.fit` in `train_model.py` are not modelled: package
  installation and fine-tuning are outside the core.
- In `train_model.py` the context text, the application list and the repeat average
  appear only in the text of a pair, so they are carried as data and no property is stated
  about them.
- `TrainModel.OwnerExamplesShape`: the training script produces one to five pairs per owner,
  depending on which thresholds pass (one 0.6 pair always, up to four 1.0 pairs, and the 0.2
  pair only without critical/high findings, when the first pair cannot occur). It does not
  produce a fixed six pairs per owner; the model follows the code.
- `functools.lru_cache` on `calculate_metrics_for_ao` (`api_optimized.py:278`, keyed by the
  owner id) and on `get_data_hash` (`api_optimized.py:66`) is not modelled.
  `ApiOptimized.CalculateMetricsForAo` always computes from the current data cache. The source
  keeps returning an owner's memoised metrics after `load_data` reloads the spreadsheet
  (every 300 seconds), so it can serve metrics that are stale against the reloaded table. The
  model does not capture that staleness. The cache of `generate_suggestions` in
  `model_integration.py` appears only through the finding below.
- The loaders of `dashboard.py`, `dashboard_optimized.py`, `dashboard_simplified.py`,
  `enhanced_dashboard.py` and `suggestion_api.py` derive the same columns as
  `Table.AddDerivedColumns`, each from its own fixed `current_date` (16 June 2025 in
  `dashboard.py`, 17 June 2025 elsewhere). The dashboard and service functions take the loaded
  rows as input. Only `ApiOptimized` and `DashboardOptimized` name their date, because their
  contracts refer to it.

## Findings

| source | as written | input that shows it | evidently intended | confidence | as-written member | corrected member |
|---|---|---|---|---|---|---|
| api_optimized.py:286-287 | The 404 raised by `calculate_metrics_for_ao` for an unknown owner is caught by the broad `except Exception` of `generate_suggestions_for_ao` (lines 415-417) and re-raised as a 500. | `GET /suggestions/X` for an owner id `X` with no rows | answer 404 "No data found" for an unknown owner | not executed | ApiOptimized.GenerateSuggestionsForAoAsWritten | ApiOptimized.UnknownOwnerStatus |
| assets/js/dashboard.js:1124 | A second top-level `class PerformanceMonitor` repeats the declaration at line 357. A script that declares a lexical name twice is rejected with a SyntaxError before anything runs, so no data manager, shortcut table or theme manager ever exists on the page. | loading the page that includes the script | one monitor class, so the script loads and its helpers are created | not executed | DashboardScript.AsWrittenHasEarlyError | DashboardScript.CorrectedLoads |
| model_integration.py:46-47 | `generate_suggestions` is decorated with `lru_cache`, which hashes its arguments. The dashboard passes the multi-select owner list (dashboard_simplified.py:319), so every call raises `TypeError` and the panel shows the error alert. | any non-empty owner selection, e.g. `["AO001"]` | rule-based suggestions for the selected owners | not executed | ModelIntegration.CachedListSelectionNeverReachesRules | DashboardSimplified.SuggestionPanelRulesSpec |
