/**
 * `PerformanceCorrelationAgent.get_correlation_insights`: correlation
 * records and ROI scores are paired positionally into insights and
 * "roi_correlations" rows, which are persisted in a single insert.
 */
module PerformanceCorrelationAgent {
  import opened Wrappers
  import opened Models
  import opened Warehouse
  import opened BigQueryCorrelation

  const CorrelationTable := "roi_correlations"
  const NoModel := "N/A"

  function Min(a: nat, b: nat): nat { if a <= b then a else b }

  /** The loop over `zip(correlation_results, roi_scores)`: one insight and
      one row per pair, as many pairs as the shorter list has entries. Each
      insight takes its workload, cost and impact from correlation `i` and its
      score from ROI entry `i`; each row mirrors its insight and carries the
      one timestamp taken before the loop. */
  method AssembleInsights(correlations: seq<Correlation>, scores: seq<RoiEntry>, timestamp: string)
    returns (insights: seq<CorrelationInsight>, rows: seq<Row>)
    ensures |insights| == |rows| == Min(|correlations|, |scores|)
    ensures forall i :: 0 <= i < |insights| ==>
      && insights[i].workload == correlations[i].metric
      && insights[i].modelId == NoModel
      && insights[i].cost == insights[i].kpiImpactScore == correlations[i].coeff
      && insights[i].roiScore == scores[i].roiScore
      && insights[i].comment == InsightComment(correlations[i].coeff, correlations[i].mse)
    ensures forall i :: 0 <= i < |rows| ==>
      && rows[i].CorrelationRow?
      && rows[i].timestamp == timestamp
      && rows[i].aiSystemId == insights[i].workload
      && rows[i].infrastructureCost == correlations[i].coeff
      && rows[i].businessValue == correlations[i].coeff * correlations[i].coeff
      && rows[i].businessValue >= 0.0
      && rows[i].roiScore == insights[i].roiScore
      && rows[i].confidenceLevel == 1.0
      && rows[i].correlationMetadata == correlations[i]
  {
    var n := Min(|correlations|, |scores|);
    insights := [];
    rows := [];
    for i := 0 to n
      invariant |insights| == |rows| == i
      invariant forall k :: 0 <= k < i ==>
        && insights[k].workload == correlations[k].metric
        && insights[k].modelId == NoModel
        && insights[k].cost == insights[k].kpiImpactScore == correlations[k].coeff
        && insights[k].roiScore == scores[k].roiScore
        && insights[k].comment == InsightComment(correlations[k].coeff, correlations[k].mse)
      invariant forall k :: 0 <= k < i ==>
        && rows[k].CorrelationRow?
        && rows[k].timestamp == timestamp
        && rows[k].aiSystemId == insights[k].workload
        && rows[k].infrastructureCost == correlations[k].coeff
        && rows[k].businessValue == correlations[k].coeff * correlations[k].coeff
        && rows[k].businessValue >= 0.0
        && rows[k].roiScore == insights[k].roiScore
        && rows[k].confidenceLevel == 1.0
        && rows[k].correlationMetadata == correlations[k]
    {
      var corr := correlations[i];
      var roi := scores[i];
      var insight := CorrelationInsight(corr.metric, NoModel, corr.coeff, corr.coeff, roi.roiScore,
                                        InsightComment(corr.coeff, corr.mse));
      insights := insights + [insight];
      rows := rows + [CorrelationRow(timestamp, corr.metric, corr.coeff, corr.coeff * corr.coeff,
                                     insight.roiScore, 1.0, corr)];
    }
  }

  /** `get_correlation_insights` with the two table reads and the clock as
      parameters. Empty business data makes the correlation fail, and then
      nothing is inserted. Otherwise exactly one insert into
      "roi_correlations" happens, even when there are no rows; insight `i` and
      row `i` are built from correlation record `i` and its ROI score, every
      field as `AssembleInsights` states it. */
  method GetCorrelationInsights(dataset: Dataset, business: seq<BusinessObservation>,
                                infra: seq<InfraObservation>, fit: seq<JoinedSample> -> LinearFit,
                                timestamp: string)
    returns (r: Result<seq<CorrelationInsight>, Exception>)
    modifies dataset
    ensures r.Err? <==> business == []
    ensures r.Err? ==> r.error == KeyError("timestamp") && dataset.inserts == old(dataset.inserts)
    ensures r.Ok? ==>
      var records := Correlations(Distinct(MetricNames(business)), Join(business, infra), fit);
      && |r.value| == |records|
      && (forall i :: 0 <= i < |records| ==>
            && r.value[i].workload == records[i].metric
            && r.value[i].modelId == NoModel
            && r.value[i].cost == r.value[i].kpiImpactScore == records[i].coeff
            && r.value[i].roiScore == RoiScore(records[i])
            && r.value[i].comment == InsightComment(records[i].coeff, records[i].mse))
      && |dataset.inserts| == |old(dataset.inserts)| + 1
      && dataset.inserts[..|old(dataset.inserts)|] == old(dataset.inserts)
      && dataset.inserts[|old(dataset.inserts)|].table == CorrelationTable
      && |dataset.inserts[|old(dataset.inserts)|].rows| == |records|
      && (forall i :: 0 <= i < |records| ==>
            var row := dataset.inserts[|old(dataset.inserts)|].rows[i];
            && row.CorrelationRow?
            && row.timestamp == timestamp
            && row.aiSystemId == records[i].metric
            && row.infrastructureCost == records[i].coeff
            && row.businessValue == records[i].coeff * records[i].coeff
            && row.businessValue >= 0.0
            && row.roiScore == r.value[i].roiScore
            && row.confidenceLevel == 1.0
            && row.correlationMetadata == records[i])
  {
    var correlated := CorrelateBusinessAiMetrics(business, infra, fit);
    if correlated.Err? {
      return Err(correlated.error);
    }
    var records := correlated.value;
    var scores := CalculateAiRoi(business, records);
    var insights, rows := AssembleInsights(records, scores, timestamp);
    dataset.InsertRows(CorrelationTable, rows);
    r := Ok(insights);
  }
}
