# AI-ROI agent core in Dafny

This project models the deterministic core of the AI-ROI agent ("my-awesome-agent"). That agent reads business KPIs from CRM, ERP and finance systems. It reads infrastructure cost and utilisation from the warehouse and from cloud monitoring. It then correlates the two, scores the return on AI spending, flags anomalies and forecasts infrastructure needs. Every result is persisted back into warehouse tables.

Every warehouse query, monitoring read, integration call and clock reading is a parameter of the model. Every insert is either recorded in an insert log (`Warehouse.Dataset`) or returned as an output value.

Modules, one per core file plus shared records:

- `Wrappers`: `Option`, `Result`, and the Python exceptions the core can raise (`ValueError`, `KeyError`, a pydantic `ValidationError`).
- `Models`: the typed models (`Anomaly`, `Forecast`, `BusinessKpiData`, `CorrelationInsight`), the dictionaries services return, and the row payloads of each destination table.
- `Warehouse`: the dataset as an append-only log of `insert_rows` calls (a class whose method updates its field).
- `BigQueryQuery`: the date-range parser and the `IN (...)` filter of `fetch_business_metrics`, and the query text built from them.
- `BigQueryCorrelation`: the covered methods are listed below.
  - `correlate_business_ai_metrics`: an inner join on timestamp, grouping by metric in order of first appearance, and the five-sample rule. The least-squares fit is a function parameter.
  - `calculate_ai_roi`.
  - The `overall_roi` formula of `calculate_comprehensive_roi`.
- `PerformanceCorrelationAgent`: the `get_correlation_insights` loop that pairs correlations with ROI scores and persists one row per pair.
- `AnomalyTools`: `detect_anomalies`, eight rule stages appended to one list.
- `ForecastingAgent`: the `predict_ai_infra_trends` transform loop and its single insert.
- `VertexAiService`: the deterministic helpers of the Vertex service.
- `BusinessMetricsAgent`: `get_financials` and the insert-then-return shape of every `get_*` tool.
- `Sequences`: the shape shared by the comprehensions that yield zero or one record per input element, with its order and bound lemmas.

Loops in the source are methods with loop invariants, proved against specification functions. Comprehensions, `sorted`, `sum` and `max` are functions with lemmas.

## Model

| member | source | states |
|---|---|---|
| Models.Lookup | my-awesome-agent/app/tools/anomaly_tools.py:132 | `d.get(key)` is Some exactly when some entry has that key, and then it returns that entry's value |
| Warehouse.Dataset.constructor | my-awesome-agent/app/services/bigquery_service.py:142-147 | a fresh dataset has recorded no inserts |
| Warehouse.Dataset.InsertRows | my-awesome-agent/app/services/bigquery_service.py:142-147 | an insert appends exactly one call (table, rows) to the log and changes nothing already logged |
| BigQueryQuery.Upper | my-awesome-agent/app/services/bigquery_service.py:159 | upper-casing maps an ASCII letter to the upper-case letter 32 code points below, or leaves it unchanged |
| BigQueryQuery.UpperAll | my-awesome-agent/app/services/bigquery_service.py:159 | `unit.upper()` keeps the length and upper-cases each character |
| BigQueryQuery.DigitRun | my-awesome-agent/app/services/bigquery_service.py:155 | the greedy `(\d+)` takes the longest digit prefix: all digits, followed by a non-digit or the end |
| BigQueryQuery.LetterRun | my-awesome-agent/app/services/bigquery_service.py:155 | the greedy `([a-zA-Z]+)` takes the longest letter prefix |
| BigQueryQuery.DigitRunAt | my-awesome-agent/app/services/bigquery_service.py:155 | any digit prefix followed by a non-digit is the digit run |
| BigQueryQuery.LetterRunAt | my-awesome-agent/app/services/bigquery_service.py:155 | any letter prefix followed by a non-letter or the end is the letter run |
| BigQueryQuery.ParseDateRange | my-awesome-agent/app/services/bigquery_service.py:155-167 | the parser fails only with ValueError; an accepted range keeps a non-empty all-digit prefix of the input as its count (its exact acceptance set is AcceptedIff) |
| BigQueryQuery.InvalidFormatIff | my-awesome-agent/app/services/bigquery_service.py:155-157 | the "Invalid date_range format" error is raised if and only if the input does not start with digits followed by a letter (so "30" and "d30" are rejected) |
| BigQueryQuery.MessagesDiffer | my-awesome-agent/app/services/bigquery_service.py:157-167 | the two ValueError messages never coincide, so the error tells the two rejections apart |
| BigQueryQuery.AcceptedIff | my-awesome-agent/app/services/bigquery_service.py:155-165 | a date range is accepted if and only if its letter run is one letter that upper-cases to D, W or M; the count is then the digit prefix unchanged and the unit is the one that letter names |
| BigQueryQuery.AcceptedParses | my-awesome-agent/app/services/bigquery_service.py:155-165 | a digit run followed by a single letter that upper-cases to D, W or M is accepted |
| BigQueryQuery.ParsedIsAccepted | my-awesome-agent/app/services/bigquery_service.py:155-165 | an accepted date range is a digit run followed by a single D, W or M letter (any case), and the result keeps the digit run and names that letter's unit |
| BigQueryQuery.MultiLetterUnitRejected | my-awesome-agent/app/services/bigquery_service.py:158-167 | a letter run of two or more letters ("30days") is rejected as an unsupported unit naming the whole upper-cased run, whatever non-letter text follows |
| BigQueryQuery.FormatThenParse | my-awesome-agent/app/services/bigquery_service.py:155-165 | round trip: count plus unit letter parses back to the same interval; trailing text after the letter run is ignored because the match anchors only at the start |
| BigQueryQuery.DefaultDateRange | my-awesome-agent/app/services/bigquery_service.py:150-161 | the default "30d" means 30 DAY |
| BigQueryQuery.FilterClause | my-awesome-agent/app/services/bigquery_service.py:171-173 | None or an empty filter adds nothing; a non-empty filter adds exactly one ` AND metric_name IN (...)` clause around the quoted list |
| BigQueryQuery.Quote | my-awesome-agent/app/services/bigquery_service.py:172 | `f"'{m}'"` is the name between two single quotes, two characters longer |
| BigQueryQuery.QuotedList | my-awesome-agent/app/services/bigquery_service.py:172 | the joined list is empty exactly when there are no names, and otherwise starts with a quote; QuotedListRoundTrip shows it decodes back to the names |
| BigQueryQuery.UntilQuote | my-awesome-agent/app/services/bigquery_service.py:172 | finds the first quote character, which is where a quoted name ends |
| BigQueryQuery.QuotedListRoundTrip | my-awesome-agent/app/services/bigquery_service.py:172 | the IN list lists every name single-quoted, comma-separated, in list order: reading it back yields the names, provided none contains a quote |
| BigQueryQuery.QuotedItemsRoundTrip | my-awesome-agent/app/services/bigquery_service.py:172 | the same round trip for a non-empty list |
| BigQueryQuery.UntilQuoteAt | my-awesome-agent/app/services/bigquery_service.py:172 | a quote preceded only by non-quotes is where a quoted name ends |
| BigQueryQuery.QuoteEndsAt | my-awesome-agent/app/services/bigquery_service.py:172 | in `'name'` followed by anything, the closing quote comes right after a quote-free name |
| BigQueryQuery.DecodeLastItem | my-awesome-agent/app/services/bigquery_service.py:172 | one quoted quote-free name reads back as that name |
| BigQueryQuery.DecodeNextItem | my-awesome-agent/app/services/bigquery_service.py:172 | a quoted quote-free name and a comma are read, then reading continues with the rest of the list |
| BigQueryQuery.BusinessMetricsQuery | my-awesome-agent/app/services/bigquery_service.py:153-173 | the query fails exactly when the date range is rejected, with the parser's error; otherwise it is the SELECT over the business_metrics table for that interval, plus the filter clause |
| BigQueryCorrelation.MatchesMembership | my-awesome-agent/app/services/bigquery_service.py:186 | the rows joined to one business row are exactly its pairings with infrastructure rows of equal timestamp |
| BigQueryCorrelation.Matches | my-awesome-agent/app/services/bigquery_service.py:186 | one business row yields at most as many merged rows as there are infrastructure rows (MatchesMembership says which) |
| BigQueryCorrelation.Join | my-awesome-agent/app/services/bigquery_service.py:186 | the merge has at most as many rows as the product of the two row counts; JoinIndices gives the exact multiplicity |
| BigQueryCorrelation.JoinMembership | my-awesome-agent/app/services/bigquery_service.py:186 | the inner join holds exactly the (business, infrastructure) pairs whose timestamps are equal, with no tolerance |
| BigQueryCorrelation.MatchesIndices | my-awesome-agent/app/services/bigquery_service.py:186 | one business row's merged rows come, in order and once each, from exactly the infrastructure rows with its timestamp, each row being that pair's join |
| BigQueryCorrelation.JoinIndices | my-awesome-agent/app/services/bigquery_service.py:186 | the inner merge has exactly one row per (business, infrastructure) pair with equal timestamps: row t is the join of pair ps[t], the pairs are strictly increasing lexicographically (so none repeats) and every equal-timestamp pair occurs |
| BigQueryCorrelation.MatchesCount | my-awesome-agent/app/services/bigquery_service.py:186 | a business row joins as many times as there are infrastructure rows with its timestamp |
| BigQueryCorrelation.GroupCount | my-awesome-agent/app/services/bigquery_service.py:186-192 | the sub-frame of a metric has exactly as many rows as there are (business row of that metric, infrastructure row) pairs with equal timestamps, which is what the five-sample rule compares |
| BigQueryCorrelation.GroupAppend | my-awesome-agent/app/services/bigquery_service.py:191 | selecting a metric's rows distributes over concatenating frames |
| BigQueryCorrelation.GroupOfMatches | my-awesome-agent/app/services/bigquery_service.py:186-191 | one business row's merged rows all fall in its own metric's sub-frame and in no other |
| BigQueryCorrelation.JoinWithoutInfra | my-awesome-agent/app/services/bigquery_service.py:186 | with no infrastructure rows nothing joins |
| BigQueryCorrelation.Group | my-awesome-agent/app/services/bigquery_service.py:191 | a metric's sub-frame is no longer than the merged frame |
| BigQueryCorrelation.GroupMembers | my-awesome-agent/app/services/bigquery_service.py:191 | a metric's sub-frame holds exactly the merged rows with that metric name |
| BigQueryCorrelation.MetricNames | my-awesome-agent/app/services/bigquery_service.py:190 | the metric-name column has one entry per business row, in row order |
| BigQueryCorrelation.Distinct | my-awesome-agent/app/services/bigquery_service.py:190 | `unique()` has the same names as its input and no duplicates |
| BigQueryCorrelation.FirstIndex | my-awesome-agent/app/services/bigquery_service.py:190 | the first occurrence of a name: it holds the name and no earlier position does |
| BigQueryCorrelation.FirstIndexOfPrefix | my-awesome-agent/app/services/bigquery_service.py:190 | a name's first occurrence is the same in a prefix that contains it |
| BigQueryCorrelation.DistinctOrder | my-awesome-agent/app/services/bigquery_service.py:190 | `unique()` lists names in order of first appearance |
| BigQueryCorrelation.Emitted | my-awesome-agent/app/services/bigquery_service.py:191-203 | one metric yields at most one record, and one exactly when its group has at least five rows; that record names the metric |
| BigQueryCorrelation.FitRecord | my-awesome-agent/app/services/bigquery_service.py:193-203 | the record of a metric carries that metric's name |
| BigQueryCorrelation.EmitFor | my-awesome-agent/app/services/bigquery_service.py:190-203 | the per-metric rule as a function of the metric alone |
| BigQueryCorrelation.Correlations | my-awesome-agent/app/services/bigquery_service.py:189-203 | the loop's result has at most one record per metric (CorrelationIndices and CorrelationRecords say which, in which order) |
| BigQueryCorrelation.CorrelationIndices | my-awesome-agent/app/services/bigquery_service.py:189-203 | the records are the fits of exactly the metrics with at least five joined rows, in the order of the metric list |
| BigQueryCorrelation.CorrelateBusinessAiMetrics | my-awesome-agent/app/services/bigquery_service.py:178-204 | the loop returns KeyError("timestamp") if and only if the business data is empty (the empty frame has no timestamp column to merge on); otherwise it returns the correlation records of the distinct metric names over the join |
| BigQueryCorrelation.CorrelationRecords | my-awesome-agent/app/services/bigquery_service.py:186-203 | a record is emitted for a metric if and only if the metric occurs and has at least five joined rows (four skipped, five kept); at most one per metric, in first-appearance order, each holding the fit of that metric's joined rows |
| BigQueryCorrelation.RecordsCover | my-awesome-agent/app/services/bigquery_service.py:190-192 | a metric has a record exactly when it is named and its group has at least five rows |
| BigQueryCorrelation.RecordsOrdered | my-awesome-agent/app/services/bigquery_service.py:190 | records follow the first appearance of their metrics |
| BigQueryCorrelation.RecordsAreFits | my-awesome-agent/app/services/bigquery_service.py:193-203 | every record is the fit of its own metric's group |
| BigQueryCorrelation.GroupMembership | my-awesome-agent/app/services/bigquery_service.py:186-192 | a row is in a metric's sub-frame exactly when it is the join of an equal-timestamp (business row of that metric, infrastructure row) pair; GroupCount gives how many |
| BigQueryCorrelation.CorrelationErrorNonNegative | my-awesome-agent/app/services/bigquery_service.py:197-202 | every record's mse is the fit's, so it is never negative when the fit's never is |
| BigQueryCorrelation.CorrelationMember | my-awesome-agent/app/services/bigquery_service.py:198-203 | every record holds the fit of its own metric's group |
| BigQueryCorrelation.RoiScoreProperties | my-awesome-agent/app/services/bigquery_service.py:214 | the denominator \|mse\|+1 is at least 1 and multiplying back recovers coeff; \|roi\| ≤ \|coeff\|; roi has coeff's sign and is zero exactly when coeff is; mse = 0 gives roi = coeff |
| BigQueryCorrelation.RoiScore | my-awesome-agent/app/services/bigquery_service.py:214 | coeff/(\|mse\|+1) is positive exactly when coeff is and zero exactly when coeff is |
| BigQueryCorrelation.CalculateAiRoi | my-awesome-agent/app/services/bigquery_service.py:206-219 | one entry per correlation record, in order, with the metric copied and the score coeff/(\|mse\|+1); business data is not read |
| BigQueryCorrelation.RoiScoreExample | my-awesome-agent/app/services/bigquery_service.py:214 | coeff 2 with mse 1 scores 1 |
| BigQueryCorrelation.OverallRoi | my-awesome-agent/app/services/bigquery_service.py:248 | overall ROI is present exactly when the total cost is truthy (present and non-zero), and then ROI × cost = value − cost, so it is zero exactly when value equals cost |
| BigQueryCorrelation.CalculateComprehensiveRoi | my-awesome-agent/app/services/bigquery_service.py:242-253 | both totals are echoed; a ratio is present exactly when the cost is non-zero, and then value = cost × (1 + ROI) |
| PerformanceCorrelationAgent.AssembleInsights | my-awesome-agent/app/agents/performance_correlation_agent.py:44-65 | `zip` truncates, so the counts of insights and rows both equal the shorter input. Insight i pairs correlation i with ROI entry i positionally: model "N/A", cost and impact both coeff. Row i has metric as system, coeff as cost, coeff² ≥ 0 as value, confidence 1.0, the insight's score and the one shared timestamp |
| PerformanceCorrelationAgent.GetCorrelationInsights | my-awesome-agent/app/agents/performance_correlation_agent.py:35-68 | empty business data fails with KeyError and inserts nothing. Otherwise there is exactly one insert into "roi_correlations", even when empty, appended after the earlier ones, with one row per correlation record. Insight i has record i's metric as workload, model "N/A", coeff as cost and impact, record i's ROI score and its comment. Row i has the metric as system, coeff as cost, coeff² ≥ 0 as value, the insight's score, confidence 1.0, the record as metadata and the shared timestamp |
| Sequences.FlatMapAppend | my-awesome-agent/app/tools/anomaly_tools.py:31-41 | a comprehension over two concatenated inputs is the concatenation of the two results |
| Sequences.FlatMapBound | my-awesome-agent/app/tools/anomaly_tools.py:31-128 | a rule reporting at most once per element reports at most once per element of its stage |
| Sequences.FlatMapIndices | my-awesome-agent/app/tools/anomaly_tools.py:31-128 | a stage keeps input order: each report comes from a strictly later input than the one before, and every input the rule flags is reported |
| Sequences.FlatMapMember | my-awesome-agent/app/tools/anomaly_tools.py:31-128 | every report of a stage comes from one of its inputs |
| AnomalyTools.CostAnomaly | my-awesome-agent/app/tools/anomaly_tools.py:31-41 | a billing item is flagged if and only if its cost (0 when absent) exceeds 40000, as Critical if and only if it exceeds 50000 and Moderate otherwise. A flagged item without a service fails pydantic validation |
| AnomalyTools.CostAnomaliesShape | my-awesome-agent/app/tools/anomaly_tools.py:29-41 | the cost stage fails exactly when a flagged item lacks a service; otherwise it has at most one Cost Spike per item |
| AnomalyTools.CostAnomaliesInOrder | my-awesome-agent/app/tools/anomaly_tools.py:29-41 | a successful cost stage is exactly each billing item's own report (none, or the one CostAnomaly builds), concatenated in the order of the items |
| AnomalyTools.CostAnomalies | my-awesome-agent/app/tools/anomaly_tools.py:31-41 | the cost stage can fail only with the missing-service validation error, and every report carries the clock reading as its timestamp |
| AnomalyTools.SpikeAnomaly | my-awesome-agent/app/tools/anomaly_tools.py:43-93 | a monitoring point is flagged if and only if its value (0 when absent) exceeds the rule's threshold, with the rule's kind, component, action and the point's timestamp |
| AnomalyTools.Spikes | my-awesome-agent/app/tools/anomaly_tools.py:43-93 | every report of a monitoring stage has its rule's kind, component and action |
| AnomalyTools.UtilisationAlwaysHigh | my-awesome-agent/app/tools/anomaly_tools.py:45-67 | flagged CPU and memory points are always High, because the 0.85 cut-off lies below the 0.90 filter |
| AnomalyTools.DiskAndNetworkSeverity | my-awesome-agent/app/tools/anomaly_tools.py:69-93 | disk is flagged if and only if > 200, Moderate if and only if > 300, else Low; network is flagged if and only if > 5e6, High if and only if > 1e7, else Low |
| AnomalyTools.KpiRules | my-awesome-agent/app/tools/anomaly_tools.py:95-128 | csat < 3 gives Low CSAT/High; lead_conversion < 0.05 gives Low Conversion Rate/Moderate; order_fulfillment_time > 7 gives Fulfillment Delay/High. Each of these holds in both directions, and other names give nothing |
| AnomalyTools.CrmAnomaly | my-awesome-agent/app/tools/anomaly_tools.py:95-115 | a CRM record yields at most one report, stamped with the record's timestamp and the "CRM" component |
| AnomalyTools.ErpAnomaly | my-awesome-agent/app/tools/anomaly_tools.py:117-128 | an ERP record yields at most one report, stamped with the record's timestamp and the "ERP" component |
| AnomalyTools.FinanceAnomalies | my-awesome-agent/app/tools/anomaly_tools.py:130-150 | budget > 1e6 yields Budget Overrun and savings < 10000 yields Low Savings, each in both directions, with absent values read as 0. There are at most two reports. Each carries the dictionary's timestamp and the "Finance" component; Budget Overrun is Critical and Low Savings Moderate, and when both fire Budget Overrun comes first. A firing rule without a timestamp raises KeyError |
| AnomalyTools.MissingSavingsFires | my-awesome-agent/app/tools/anomaly_tools.py:142-150 | without a savings entry the savings rule always fires |
| AnomalyTools.StageTable | my-awesome-agent/app/tools/anomaly_tools.py:29-150 | each kind the detector makes has its own stage number, in the order the stages run |
| AnomalyTools.FinanceInStage | my-awesome-agent/app/tools/anomaly_tools.py:130-150 | the finance stage holds only finance kinds |
| AnomalyTools.ExtendStages | my-awesome-agent/app/tools/anomaly_tools.py:29-150 | appending a stage-k list to a list ordered up to stage k keeps it ordered |
| AnomalyTools.FlatMapInStage | my-awesome-agent/app/tools/anomaly_tools.py:31-128 | a rule making only stage-k kinds yields a stage-k list |
| AnomalyTools.SpikesInStage | my-awesome-agent/app/tools/anomaly_tools.py:43-93 | a monitoring stage holds only its rule's kind |
| AnomalyTools.CostInStage | my-awesome-agent/app/tools/anomaly_tools.py:29-41 | the cost stage holds only Cost Spikes |
| AnomalyTools.KpiInStage | my-awesome-agent/app/tools/anomaly_tools.py:95-128 | the CRM stage holds only CRM kinds and the ERP stage only Fulfillment Delay |
| AnomalyTools.ConcatStages | my-awesome-agent/app/tools/anomaly_tools.py:29-152 | eight stage lists concatenated in stage order are ordered by stage |
| AnomalyTools.Detected | my-awesome-agent/app/tools/anomaly_tools.py:29-152 | a successful run starts with the cost stage and ends with the finance stage, both of which succeeded |
| AnomalyTools.DetectedStageOrder | my-awesome-agent/app/tools/anomaly_tools.py:29-152 | the output is ordered cost, CPU, memory, disk, network, CRM, ERP, finance, and every report belongs to one of these stages |
| AnomalyTools.DetectedBound | my-awesome-agent/app/tools/anomaly_tools.py:29-152 | at most the sum of the input lengths plus two reports |
| AnomalyTools.SpikesBound | my-awesome-agent/app/tools/anomaly_tools.py:43-93 | a monitoring stage has at most one report per point |
| AnomalyTools.DetectedFailure | my-awesome-agent/app/tools/anomaly_tools.py:29-150 | for CRM and ERP records that carry their keys, the detector fails exactly when a flagged billing item lacks a service (a validation error, raised first) or a finance rule fires without a timestamp (KeyError) |
| AnomalyTools.CostErrorKind | my-awesome-agent/app/tools/anomaly_tools.py:31-41 | the cost stage can only fail with a validation error |
| AnomalyTools.DetectAnomalies | my-awesome-agent/app/tools/anomaly_tools.py:25-152 | the method appending stage by stage returns exactly the stage-ordered specification `Detected`, about which the lemmas above are proved |
| AnomalyTools.AppendCrmAnomalies | my-awesome-agent/app/tools/anomaly_tools.py:95-115 | the CRM loop appends the CRM rules' reports for each record in order |
| AnomalyTools.AppendErpAnomalies | my-awesome-agent/app/tools/anomaly_tools.py:117-128 | the ERP loop appends the ERP rule's reports for each record in order |
| AnomalyTools.AppendFinanceAnomalies | my-awesome-agent/app/tools/anomaly_tools.py:130-150 | the two finance checks append the finance reports or raise the missing-timestamp KeyError |
| ForecastingAgent.ContainsIff | my-awesome-agent/app/agents/forecasting_agent.py:60 | Python's substring test is true exactly when the needle occurs at some position |
| ForecastingAgent.Contains | my-awesome-agent/app/agents/forecasting_agent.py:60 | a substring is never longer than the string, and the empty string is in every string |
| ForecastingAgent.CategoryOf | my-awesome-agent/app/agents/forecasting_agent.py:60 | the category is "Cost" if and only if the resource contains "CPU" (case-sensitive), otherwise "Usage" |
| ForecastingAgent.CategoryExamples | my-awesome-agent/app/agents/forecasting_agent.py:60 | "vCPU" is Cost; "TPU" and "cpu" are Usage |
| ForecastingAgent.TransformForecasts | my-awesome-agent/app/agents/forecasting_agent.py:55-78 | one Forecast and one row per Vertex forecast, in order. Name, value and unit are copied, along with the category rule, the horizon, "90%" and empty insights. Each row mirrors its Forecast field by field and carries the one timestamp taken before the loop |
| ForecastingAgent.PredictAiInfraTrends | my-awesome-agent/app/agents/forecasting_agent.py:45-80 | one result per Vertex forecast, in order: category "Cost" exactly when the resource contains "CPU" and "Usage" otherwise, name, value and unit copied, horizon "30d", confidence "90%", empty insights. Exactly one insert into "forecasts" is appended, holding one row per result that repeats it field by field with the shared timestamp |
| ForecastingAgent.PlaceholderCategories | my-awesome-agent/app/agents/forecasting_agent.py:51-60 | with the placeholder forecasts the agent reports a vCPU cost forecast and then a TPU usage forecast |
| VertexAiService.InsertBySavings | my-awesome-agent/app/services/vertex_ai_service.py:53-57 | inserting adds exactly that recommendation (as a multiset) |
| VertexAiService.InsertBounded | my-awesome-agent/app/services/vertex_ai_service.py:53-57 | inserting under a bound that every key respects keeps every key under it |
| VertexAiService.InsertKeepsSorted | my-awesome-agent/app/services/vertex_ai_service.py:53-57 | inserting into a list sorted by savings descending keeps it sorted |
| VertexAiService.InsertStable | my-awesome-agent/app/services/vertex_ai_service.py:53-57 | the inserted item goes in front of those with equal savings, leaving their order unchanged |
| VertexAiService.PrioritizeRecommendations | my-awesome-agent/app/services/vertex_ai_service.py:49-57 | the ranking is a permutation of its input |
| VertexAiService.PrioritizeSorted | my-awesome-agent/app/services/vertex_ai_service.py:53-57 | the ranking is sorted by expected savings descending (0 when absent) |
| VertexAiService.PrioritizeStable | my-awesome-agent/app/services/vertex_ai_service.py:53-57 | recommendations with equal savings keep their input order (Python's sort is stable) |
| VertexAiService.PrioritizeSpec | my-awesome-agent/app/services/vertex_ai_service.py:49-57 | permutation, sorted descending and stable, together |
| VertexAiService.MissingSavingsRanksAsZero | my-awesome-agent/app/services/vertex_ai_service.py:55 | a recommendation without savings ranks after one with positive savings, and ahead of a later one with savings 0 |
| VertexAiService.ForecastInfrastructureNeeds | my-awesome-agent/app/services/vertex_ai_service.py:68-79 | two placeholder forecasts (vCPU 180, TPU 8, unit count), each carrying the requested horizon |
| VertexAiService.GenerateCapacityPlan | my-awesome-agent/app/services/vertex_ai_service.py:81-87 | one entry per prediction with the same resource and quota = forecast × 1.2, which is at least the forecast if and only if the forecast is non-negative |
| VertexAiService.RecommendScalingStrategy | my-awesome-agent/app/services/vertex_ai_service.py:95-101 | one AutoScale entry per prediction with min = 0.8·forecast and max = 1.5·forecast, and min ≤ max if and only if the forecast is non-negative |
| VertexAiService.QuotaWithinScalingRange | my-awesome-agent/app/services/vertex_ai_service.py:85-101 | for a non-negative forecast the capacity quota lies within the scaling range of the same resource |
| VertexAiService.AssessAnomalySeverity | my-awesome-agent/app/services/vertex_ai_service.py:111-113 | one assessment per anomaly, in order, with the severity copied (None when absent) |
| VertexAiService.CalculateCarbonEmissions | my-awesome-agent/app/services/vertex_ai_service.py:162-165 | emissions = total cost (0 when absent) × 0.001 kg, non-negative when no cost is negative; the scope-3 flag is echoed |
| VertexAiService.EmissionsTotal | my-awesome-agent/app/services/vertex_ai_service.py:164 | the running sum of per-item emissions is non-negative when no cost is negative |
| VertexAiService.CostTotal | my-awesome-agent/app/services/vertex_ai_service.py:164 | the total cost is non-negative when no item cost is |
| VertexAiService.CostTotalAppend | my-awesome-agent/app/services/vertex_ai_service.py:164 | total cost is additive over concatenation |
| VertexAiService.EmissionsAreScaledCost | my-awesome-agent/app/services/vertex_ai_service.py:164 | the running sum of per-item emissions equals the total cost scaled once |
| VertexAiService.CalculateSustainabilityScore | my-awesome-agent/app/services/vertex_ai_service.py:171-173 | the score is never negative; it is 100 exactly when emissions are 0 or missing, at most 100 exactly when emissions are non-negative, and 0 exactly from 1000 kg on |
| VertexAiService.ScoreOfEmissionsInRange | my-awesome-agent/app/services/vertex_ai_service.py:162-173 | scoring the emissions of non-negative costs gives a value between 0 and 100 |
| BusinessMetricsAgent.KpiFromRecord | my-awesome-agent/app/models/business_metrics.py:4-12 | `BusinessKPIData(**r)` on a metric record keeps only its timestamp; every KPI field is None |
| BusinessMetricsAgent.PersistAndReturn | my-awesome-agent/app/agents/business_metrics_agent.py:49-62 | every `get_*` tool inserts its records into "business_metrics" and returns one KPI object per record, so persisted and returned counts match |
| BusinessMetricsAgent.GetFinancials | my-awesome-agent/app/agents/business_metrics_agent.py:64-80 | `get_financials` fails exactly when building the records fails; otherwise it persists and returns those records |
| BusinessMetricsAgent.FinanceRecord | my-awesome-agent/app/agents/business_metrics_agent.py:68-76 | a finance record is a business-metric row named by the key, holding its value in USD, the timestamp and the Finance unit |
| BusinessMetricsAgent.FinanceRecords | my-awesome-agent/app/agents/business_metrics_agent.py:67-78 | building the records fails only with KeyError("timestamp") and only without a timestamp; otherwise at most one record per entry |
| BusinessMetricsAgent.FinanceRecordsFailure | my-awesome-agent/app/agents/business_metrics_agent.py:67-78 | a missing timestamp raises KeyError exactly when some budget or savings entry is present |
| BusinessMetricsAgent.FinanceRecordsIndices | my-awesome-agent/app/agents/business_metrics_agent.py:67-78 | the records are exactly the budget and savings entries in dictionary order. Each record has the key as its name and the entry's value, "USD", the given timestamp, "Finance", no AI system and empty metadata |
| BusinessMetricsAgent.AtMostTwoFinanceRecords | my-awesome-agent/app/agents/business_metrics_agent.py:67-78 | dictionary keys are distinct, so at most two records come out |
| BusinessMetricsAgent.AtMostTwoKeys | my-awesome-agent/app/agents/business_metrics_agent.py:77 | distinct keys drawn from budget and savings number at most two |
| BusinessMetricsAgent.FinancialsExample | my-awesome-agent/app/agents/business_metrics_agent.py:64-80 | on a summary shaped like the financial integration's (budget 1,000,000, savings 150,000, a timestamp), `get_financials` persists a budget record and then a savings record and returns two KPI objects |

## Left out

- The warehouse, monitoring, billing, CRM, ERP and finance clients. This covers client construction, schema bootstrap, SQL execution and DataFrame conversion, so query results are input sequences and inserts are an output log. The `RuntimeError` that `insert_rows` raises on insert errors is not modelled.
- Warehouse.Dataset.InsertRows: records the call only; it does not model the insert failing.
- The least-squares fit. `LinearRegression` and `mean_squared_error` are library numerics, so the fit is a function parameter. Its non-negative error is a precondition only of the lemma that needs it.
- Floating point: every value is an exact `real`, so rounding, NaN and infinity are not modelled.
- BigQueryCorrelation.OverallRoi: a NULL sum that arrives as NaN is truthy in Python and would give a NaN ratio; the model treats an absent total like zero. A NULL `total_value` is not modelled.
- BigQueryQuery.DigitRun: `\d` is modelled as ASCII digits only; Python's `re` also matches other Unicode decimal digits.
- BigQueryQuery.QuotedListRoundTrip: holds only for names without a quote character, since the code does not escape quotes.
- The join order: rows are listed business-row-major. pandas may order merged rows differently, but only each metric's group is read, and the fit is a parameter.
- Observation timestamps are integers, since the join only compares them for equality. The rows' ISO timestamps are strings passed in as the clock reading.
- Text formatting: the `:.2f` insight comment is kept as a structured value, and so are the anomaly descriptions. The `json.dumps` of correlation metadata is kept as the structured record. The free-text anomaly description is not kept.
- The dictionaries of recommendations and anomalies in the Vertex helpers are reduced to the keys those helpers read plus one opaque field.
- VertexAiService.CalculateCarbonEmissions: a usage item whose "total_cost" key is present with the value None is read as 0 (in EmissionsTotal and CostTotal, through UsageItem's optional cost), and so is a present-None "total_kg_co2e" in VertexAiService.CalculateSustainabilityScore; Python computes `None*0.001` or `None*0.1` there and raises TypeError, which the model does not capture.
- VertexAiService.PrioritizeRecommendations: a recommendation whose "expected_savings_usd" key is present with the value None is ranked as 0, like an absent key; with two or more recommendations Python's `sorted` would raise TypeError comparing None with a number, which the model does not capture.
- AnomalyTools.SpikeAnomaly: a monitoring point is assumed to carry its "timestamp" key.
- AnomalyTools.DetectedFailure: CRM and ERP records are assumed to carry "metric_name", "metric_value" and "timestamp" (the integrations document them); the code subscripts them directly and raises KeyError when one is missing, which the model does not capture. A key that is present with the value None ("cost", "budget", "savings", a point's "value") is treated like an absent key, read as 0; Python would raise TypeError on the comparison.
- `analyze_metric_trends` and `calculate_custom_kpis` are not modelled, because they rely on pandas resampling, forward-fill and `pct_change`.
- The random or API-backed Vertex methods are not modelled, because they are nondeterministic or external: `_mock_model_output`, `random`, and the job client of `retrain_models`.
- The Cloud Monitoring wrapper, the agent wiring, the LLM agent construction and the field-copy agents (benchmarking, vendor lock-in, security compliance, infrastructure cost) are glue with no logic beyond what is modelled.
- The anomaly detection agent's call to `detect_anomalies` is not modelled (it omits the `vertex` argument); `detect_anomalies` is modelled directly.
- `gcp_billing_service` and `carbon_tracking_agent` are not part of this model. Of `integration_service`, only the shape of the financial summary is used.
- The lookback windows ("7d", 60 minutes) are not modelled, because they only select which data the clients return.
