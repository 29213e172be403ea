/**
 * The analytic part of `BigQueryService`: business observations are
 * inner-joined with infrastructure observations on equal timestamps, a
 * linear fit of metric value against cost is made for every business metric
 * with at least five joined samples, and each fit is turned into an ROI
 * score. The fit itself is a parameter (see README).
 */
module BigQueryCorrelation {
  import opened Wrappers
  import opened Models
  import opened Sequences

  /** An instant; the join only ever compares two of them for equality. */
  type Instant = int

  /** A row of the "business_metrics" table, as far as the correlation reads it. */
  datatype BusinessObservation = BusinessObservation(timestamp: Instant, metricName: string, metricValue: real)

  /** A row of the "infrastructure_metrics" table, as far as the correlation reads it. */
  datatype InfraObservation = InfraObservation(timestamp: Instant, costUsd: real)

  /** A row of the merged frame: one business row next to one infrastructure row. */
  datatype JoinedSample = JoinedSample(timestamp: Instant, metricName: string, costUsd: real, metricValue: real)

  /** The result of fitting `metric_value ~ cost_usd` (slope, intercept, mean squared error). */
  datatype LinearFit = LinearFit(coeff: real, intercept: real, mse: real)

  /** Groups with fewer joined samples than this are skipped. */
  const MinSamples: nat := 5

  // ----- the join -----

  function JoinPair(b: BusinessObservation, i: InfraObservation): JoinedSample {
    JoinedSample(b.timestamp, b.metricName, i.costUsd, b.metricValue)
  }

  /** The infrastructure rows that join with one business row. */
  function Matches(b: BusinessObservation, infra: seq<InfraObservation>): (r: seq<JoinedSample>)
    ensures |r| <= |infra|
  {
    if infra == [] then []
    else (if infra[0].timestamp == b.timestamp then [JoinPair(b, infra[0])] else []) + Matches(b, infra[1..])
  }

  /** `pd.merge(biz_df, infra_df, on="timestamp", how="inner")`. */
  function Join(business: seq<BusinessObservation>, infra: seq<InfraObservation>): (r: seq<JoinedSample>)
    ensures |r| <= |business| * |infra|
  {
    if business == [] then [] else Matches(business[0], infra) + Join(business[1..], infra)
  }

  lemma {:induction false} MatchesMembership(b: BusinessObservation, infra: seq<InfraObservation>, x: JoinedSample)
    ensures x in Matches(b, infra) <==>
      exists k :: 0 <= k < |infra| && infra[k].timestamp == b.timestamp && x == JoinPair(b, infra[k])
  {
    if infra != [] {
      MatchesMembership(b, infra[1..], x);
      if exists k :: 0 <= k < |infra| && infra[k].timestamp == b.timestamp && x == JoinPair(b, infra[k]) {
        var k :| 0 <= k < |infra| && infra[k].timestamp == b.timestamp && x == JoinPair(b, infra[k]);
        if k > 0 {
          assert infra[1..][k - 1] == infra[k];
        }
      }
      if x in Matches(b, infra[1..]) {
        var k :| 0 <= k < |infra[1..]| && infra[1..][k].timestamp == b.timestamp && x == JoinPair(b, infra[1..][k]);
        assert infra[k + 1] == infra[1..][k];
      }
    }
  }

  /** The join is exact: a merged row is exactly a (business, infrastructure)
      pair whose timestamps are equal, with no tolerance. */
  lemma {:induction false} JoinMembership(business: seq<BusinessObservation>, infra: seq<InfraObservation>, x: JoinedSample)
    ensures x in Join(business, infra) <==>
      exists j, k :: 0 <= j < |business| && 0 <= k < |infra|
                     && business[j].timestamp == infra[k].timestamp && x == JoinPair(business[j], infra[k])
  {
    if business != [] {
      JoinMembership(business[1..], infra, x);
      MatchesMembership(business[0], infra, x);
      if exists j, k :: 0 <= j < |business| && 0 <= k < |infra|
                        && business[j].timestamp == infra[k].timestamp && x == JoinPair(business[j], infra[k]) {
        var j, k :| 0 <= j < |business| && 0 <= k < |infra|
                    && business[j].timestamp == infra[k].timestamp && x == JoinPair(business[j], infra[k]);
        if j > 0 {
          assert business[1..][j - 1] == business[j];
        }
      }
      if x in Join(business[1..], infra) {
        var j, k :| 0 <= j < |business[1..]| && 0 <= k < |infra|
                    && business[1..][j].timestamp == infra[k].timestamp && x == JoinPair(business[1..][j], infra[k]);
        assert business[j + 1] == business[1..][j];
      }
    }
  }

  /** With no infrastructure rows nothing joins. */
  lemma {:induction false} JoinWithoutInfra(business: seq<BusinessObservation>)
    ensures Join(business, []) == []
  {
    if business != [] {
      JoinWithoutInfra(business[1..]);
    }
  }

  /** `merged[merged['metric_name'] == metric]`. */
  function Group(merged: seq<JoinedSample>, metric: string): (g: seq<JoinedSample>)
    ensures |g| <= |merged|
  {
    if merged == [] then []
    else (if merged[0].metricName == metric then [merged[0]] else []) + Group(merged[1..], metric)
  }

  /** A metric's sub-frame holds exactly the merged rows of that metric. */
  lemma {:induction false} GroupMembers(merged: seq<JoinedSample>, metric: string, x: JoinedSample)
    ensures x in Group(merged, metric) <==> x in merged && x.metricName == metric
  {
    if merged != [] {
      GroupMembers(merged[1..], metric, x);
      assert merged == [merged[0]] + merged[1..];
    }
  }

  // ----- multiplicity of the join -----

  /** The positions `k >= i` of `infra` whose timestamp equals the business row's, in order. */
  function Positions(b: BusinessObservation, infra: seq<InfraObservation>, i: nat): seq<nat>
    decreases |infra| - i
  {
    if i >= |infra| then []
    else (if infra[i].timestamp == b.timestamp then [i] else []) + Positions(b, infra, i + 1)
  }

  lemma {:induction false} PositionsBounds(b: BusinessObservation, infra: seq<InfraObservation>, i: nat)
    ensures forall t :: 0 <= t < |Positions(b, infra, i)| ==>
      i <= Positions(b, infra, i)[t] < |infra| && infra[Positions(b, infra, i)[t]].timestamp == b.timestamp
    decreases |infra| - i
  {
    if i < |infra| {
      PositionsBounds(b, infra, i + 1);
    }
  }

  lemma {:induction false} PositionsIncreasing(b: BusinessObservation, infra: seq<InfraObservation>, i: nat)
    ensures forall t1, t2 :: 0 <= t1 < t2 < |Positions(b, infra, i)| ==>
      Positions(b, infra, i)[t1] < Positions(b, infra, i)[t2]
    decreases |infra| - i
  {
    if i < |infra| {
      PositionsIncreasing(b, infra, i + 1);
      PositionsBounds(b, infra, i + 1);
    }
  }

  lemma {:induction false} PositionsComplete(b: BusinessObservation, infra: seq<InfraObservation>, i: nat)
    ensures forall k :: i <= k < |infra| && infra[k].timestamp == b.timestamp ==> k in Positions(b, infra, i)
    decreases |infra| - i
  {
    if i < |infra| {
      PositionsComplete(b, infra, i + 1);
    }
  }

  lemma {:induction false} PositionsRows(b: BusinessObservation, infra: seq<InfraObservation>, i: nat)
    requires i <= |infra|
    ensures |Positions(b, infra, i)| == |Matches(b, infra[i..])|
    ensures forall t :: 0 <= t < |Positions(b, infra, i)| && Positions(b, infra, i)[t] < |infra| ==>
      Matches(b, infra[i..])[t] == JoinPair(b, infra[Positions(b, infra, i)[t]])
    decreases |infra| - i
  {
    if i < |infra| {
      PositionsRows(b, infra, i + 1);
      assert infra[i..][0] == infra[i];
      assert infra[i..][1..] == infra[i + 1..];
    }
  }

  /** The rows of one business row's matches come from strictly increasing
      infrastructure positions `ks`, one per infrastructure row with an
      equal timestamp, and from no other. */
  lemma MatchesIndices(b: BusinessObservation, infra: seq<InfraObservation>) returns (ks: seq<nat>)
    ensures |ks| == |Matches(b, infra)|
    ensures forall t :: 0 <= t < |ks| ==>
      && ks[t] < |infra|
      && infra[ks[t]].timestamp == b.timestamp
      && Matches(b, infra)[t] == JoinPair(b, infra[ks[t]])
    ensures forall t1, t2 :: 0 <= t1 < t2 < |ks| ==> ks[t1] < ks[t2]
    ensures forall k :: 0 <= k < |infra| && infra[k].timestamp == b.timestamp ==> k in ks
  {
    ks := Positions(b, infra, 0);
    PositionsBounds(b, infra, 0);
    PositionsIncreasing(b, infra, 0);
    PositionsComplete(b, infra, 0);
    PositionsRows(b, infra, 0);
    assert infra[0..] == infra;
  }

  /** Strict lexicographic order on (business position, infrastructure position). */
  predicate PairBefore(p: (nat, nat), q: (nat, nat)) {
    p.0 < q.0 || (p.0 == q.0 && p.1 < q.1)
  }

  function Pin(j: nat, ks: seq<nat>): (r: seq<(nat, nat)>)
    ensures |r| == |ks|
    ensures forall t :: 0 <= t < |ks| ==> r[t] == (j, ks[t])
  {
    if ks == [] then [] else [(j, ks[0])] + Pin(j, ks[1..])
  }

  /** The (business, infrastructure) position pairs with equal timestamps and
      business position `j` or later, in lexicographic order. */
  function PairPositions(business: seq<BusinessObservation>, infra: seq<InfraObservation>, j: nat): seq<(nat, nat)>
    decreases |business| - j
  {
    if j >= |business| then []
    else Pin(j, Positions(business[j], infra, 0)) + PairPositions(business, infra, j + 1)
  }

  lemma {:induction false} PairPositionsBounds(business: seq<BusinessObservation>, infra: seq<InfraObservation>, j: nat)
    ensures forall t :: 0 <= t < |PairPositions(business, infra, j)| ==>
      && j <= PairPositions(business, infra, j)[t].0 < |business|
      && PairPositions(business, infra, j)[t].1 < |infra|
      && business[PairPositions(business, infra, j)[t].0].timestamp == infra[PairPositions(business, infra, j)[t].1].timestamp
    decreases |business| - j
  {
    if j < |business| {
      PairPositionsBounds(business, infra, j + 1);
      PositionsBounds(business[j], infra, 0);
    }
  }

  lemma {:induction false} PairPositionsOrdered(business: seq<BusinessObservation>, infra: seq<InfraObservation>, j: nat)
    ensures forall t1, t2 :: 0 <= t1 < t2 < |PairPositions(business, infra, j)| ==>
      PairBefore(PairPositions(business, infra, j)[t1], PairPositions(business, infra, j)[t2])
    decreases |business| - j
  {
    if j < |business| {
      PairPositionsOrdered(business, infra, j + 1);
      PairPositionsBounds(business, infra, j + 1);
      PositionsIncreasing(business[j], infra, 0);
    }
  }

  lemma {:induction false} PairPositionsComplete(business: seq<BusinessObservation>, infra: seq<InfraObservation>, j: nat)
    ensures forall j', k ::
      j <= j' < |business| && 0 <= k < |infra| && business[j'].timestamp == infra[k].timestamp ==>
      (j', k) in PairPositions(business, infra, j)
    decreases |business| - j
  {
    if j < |business| {
      PairPositionsComplete(business, infra, j + 1);
      PositionsComplete(business[j], infra, 0);
      var ks := Positions(business[j], infra, 0);
      var head := Pin(j, ks);
      var rest := PairPositions(business, infra, j + 1);
      assert PairPositions(business, infra, j) == head + rest;
      forall j', k | j <= j' < |business| && 0 <= k < |infra| && business[j'].timestamp == infra[k].timestamp
        ensures (j', k) in head + rest
      {
        if j' == j {
          var t :| 0 <= t < |ks| && ks[t] == k;
          assert head[t] == (j, k);
          assert (head + rest)[t] == (j, k);
        } else {
          assert (j', k) in rest;
        }
      }
    }
  }

  lemma {:induction false} PairPositionsRows(business: seq<BusinessObservation>, infra: seq<InfraObservation>, j: nat)
    requires j <= |business|
    ensures |PairPositions(business, infra, j)| == |Join(business[j..], infra)|
    ensures forall t :: 0 <= t < |PairPositions(business, infra, j)|
                        && PairPositions(business, infra, j)[t].0 < |business|
                        && PairPositions(business, infra, j)[t].1 < |infra| ==>
      Join(business[j..], infra)[t]
        == JoinPair(business[PairPositions(business, infra, j)[t].0], infra[PairPositions(business, infra, j)[t].1])
    decreases |business| - j
  {
    if j < |business| {
      PairPositionsRows(business, infra, j + 1);
      PairPositionsBounds(business, infra, j);
      PositionsRows(business[j], infra, 0);
      assert infra[0..] == infra;
      assert business[j..][0] == business[j];
      assert business[j..][1..] == business[j + 1..];
    }
  }

  /** The merge has exactly one row per (business, infrastructure) pair with
      equal timestamps: `ps` lists the pairs behind the rows, in strictly
      increasing lexicographic order (so no pair twice), and every
      equal-timestamp pair is among them. */
  lemma JoinIndices(business: seq<BusinessObservation>, infra: seq<InfraObservation>) returns (ps: seq<(nat, nat)>)
    ensures |ps| == |Join(business, infra)|
    ensures forall t :: 0 <= t < |ps| ==>
      && ps[t].0 < |business| && ps[t].1 < |infra|
      && business[ps[t].0].timestamp == infra[ps[t].1].timestamp
      && Join(business, infra)[t] == JoinPair(business[ps[t].0], infra[ps[t].1])
    ensures forall t1, t2 :: 0 <= t1 < t2 < |ps| ==> PairBefore(ps[t1], ps[t2])
    ensures forall j, k ::
      0 <= j < |business| && 0 <= k < |infra| && business[j].timestamp == infra[k].timestamp ==> (j, k) in ps
  {
    ps := PairPositions(business, infra, 0);
    PairPositionsBounds(business, infra, 0);
    PairPositionsOrdered(business, infra, 0);
    PairPositionsComplete(business, infra, 0);
    PairPositionsRows(business, infra, 0);
    assert business[0..] == business;
  }

  /** How many infrastructure rows share a business row's timestamp. */
  function MatchCount(b: BusinessObservation, infra: seq<InfraObservation>): (n: nat)
    ensures n <= |infra|
  {
    if infra == [] then 0
    else (if infra[0].timestamp == b.timestamp then 1 else 0) + MatchCount(b, infra[1..])
  }

  /** How many (business row of `metric`, infrastructure row) pairs have equal timestamps. */
  function PairCount(business: seq<BusinessObservation>, infra: seq<InfraObservation>, metric: string): nat
  {
    if business == [] then 0
    else (if business[0].metricName == metric then MatchCount(business[0], infra) else 0)
         + PairCount(business[1..], infra, metric)
  }

  lemma {:induction false} MatchesCount(b: BusinessObservation, infra: seq<InfraObservation>)
    ensures |Matches(b, infra)| == MatchCount(b, infra)
  {
    if infra != [] {
      MatchesCount(b, infra[1..]);
    }
  }

  /** All matches of one business row carry its metric name. */
  lemma {:induction false} GroupOfMatches(b: BusinessObservation, infra: seq<InfraObservation>, metric: string)
    ensures Group(Matches(b, infra), metric) == if b.metricName == metric then Matches(b, infra) else []
  {
    if infra != [] {
      GroupOfMatches(b, infra[1..], metric);
      var rest := Matches(b, infra[1..]);
      if infra[0].timestamp == b.timestamp {
        var x := JoinPair(b, infra[0]);
        var xs := [x] + rest;
        assert Matches(b, infra) == xs;
        assert xs[0] == x && xs[1..] == rest;
        assert Group(xs, metric) == (if x.metricName == metric then [x] else []) + Group(rest, metric);
      } else {
        assert Matches(b, infra) == rest;
      }
    }
  }

  /** Filtering by metric distributes over concatenation. */
  lemma {:induction false} GroupAppend(a: seq<JoinedSample>, c: seq<JoinedSample>, metric: string)
    ensures Group(a + c, metric) == Group(a, metric) + Group(c, metric)
    decreases |a|
  {
    if a == [] {
      assert a + c == c;
    } else {
      var h: seq<JoinedSample> := if a[0].metricName == metric then [a[0]] else [];
      GroupAppend(a[1..], c, metric);
      assert (a + c)[0] == a[0];
      assert (a + c)[1..] == a[1..] + c;
      assert Group(a + c, metric) == h + Group(a[1..] + c, metric);
      assert Group(a, metric) == h + Group(a[1..], metric);
      assert h + (Group(a[1..], metric) + Group(c, metric)) == (h + Group(a[1..], metric)) + Group(c, metric);
    }
  }

  /** The five-sample rule counts pairs: a metric's group in the merge has
      exactly as many rows as there are (business row of that metric,
      infrastructure row) pairs with equal timestamps. */
  lemma {:induction false} GroupCount(business: seq<BusinessObservation>, infra: seq<InfraObservation>, metric: string)
    ensures |Group(Join(business, infra), metric)| == PairCount(business, infra, metric)
  {
    if business != [] {
      GroupCount(business[1..], infra, metric);
      GroupAppend(Matches(business[0], infra), Join(business[1..], infra), metric);
      GroupOfMatches(business[0], infra, metric);
      MatchesCount(business[0], infra);
    }
  }

  // ----- first-appearance order of metric names -----

  function MetricNames(business: seq<BusinessObservation>): (names: seq<string>)
    ensures |names| == |business|
    ensures forall j :: 0 <= j < |business| ==> names[j] == business[j].metricName
  {
    seq(|business|, j requires 0 <= j < |business| => business[j].metricName)
  }

  predicate NoDuplicates(s: seq<string>) {
    forall i, j :: 0 <= i < j < |s| ==> s[i] != s[j]
  }

  /** `Series.unique()`: each name once, in order of first appearance. */
  function Distinct(s: seq<string>): (d: seq<string>)
    ensures forall x :: x in d <==> x in s
    ensures NoDuplicates(d)
  {
    if s == [] then []
    else
      var p := Distinct(s[..|s| - 1]);
      assert forall x :: x in s <==> x in s[..|s| - 1] || x == s[|s| - 1];
      if s[|s| - 1] in p then p else p + [s[|s| - 1]]
  }

  /** The index of the first occurrence of `x` in `s`. */
  function FirstIndex(s: seq<string>, x: string): (r: nat)
    requires x in s
    ensures r < |s| && s[r] == x
    ensures forall k :: 0 <= k < r ==> s[k] != x
  {
    if s[0] == x then 0
    else
      var r := 1 + FirstIndex(s[1..], x);
      assert forall k :: 1 <= k < r ==> s[k] == s[1..][k - 1];
      r
  }

  lemma FirstIndexOfPrefix(s: seq<string>, m: nat, x: string)
    requires m <= |s| && x in s[..m]
    ensures x in s && FirstIndex(s, x) == FirstIndex(s[..m], x)
  {
    var a, b := FirstIndex(s, x), FirstIndex(s[..m], x);
    assert s[b] == s[..m][b];
  }

  /** `unique()` lists names in the order in which they first appear. */
  lemma {:induction false} DistinctOrder(s: seq<string>)
    ensures forall i, j :: 0 <= i < j < |Distinct(s)| ==>
              FirstIndex(s, Distinct(s)[i]) < FirstIndex(s, Distinct(s)[j])
  {
    if s != [] {
      var n := |s|;
      var prefix := s[..n - 1];
      DistinctOrder(prefix);
      var p := Distinct(prefix);
      forall x | x in p
        ensures x in s && FirstIndex(s, x) == FirstIndex(prefix, x) < n - 1
      {
        FirstIndexOfPrefix(s, n - 1, x);
      }
      if s[n - 1] in p {
        assert Distinct(s) == p;
      } else {
        var d := p + [s[n - 1]];
        assert Distinct(s) == d;
        assert s[n - 1] !in prefix;
        assert FirstIndex(s, s[n - 1]) == n - 1;
        forall i, j | 0 <= i < j < |d|
          ensures FirstIndex(s, d[i]) < FirstIndex(s, d[j])
        {
          assert d[i] == p[i] && d[i] in p;
          if j < |p| {
            assert d[j] == p[j] && d[j] in p;
            assert FirstIndex(prefix, p[i]) < FirstIndex(prefix, p[j]);
          }
        }
      }
    }
  }

  // ----- correlation records -----

  /** The record emitted for one metric: none when it has fewer than
      `MinSamples` joined rows, otherwise the fit of its group. */
  function Emitted(metric: string, merged: seq<JoinedSample>, fit: seq<JoinedSample> -> LinearFit)
    : (r: seq<Correlation>)
    ensures |r| <= 1
    ensures r != [] <==> MinSamples <= |Group(merged, metric)|
    ensures r != [] ==> r[0].metric == metric
  {
    if |Group(merged, metric)| < MinSamples then [] else [FitRecord(metric, merged, fit)]
  }

  /** The record of one metric: the fit of that metric's joined rows. */
  function FitRecord(metric: string, merged: seq<JoinedSample>, fit: seq<JoinedSample> -> LinearFit)
    : (c: Correlation)
    ensures c.metric == metric
  {
    var model := fit(Group(merged, metric));
    Correlation(metric, model.coeff, model.intercept, model.mse)
  }

  /** The records emitted for `metrics`, in that order. */
  function Correlations(metrics: seq<string>, merged: seq<JoinedSample>, fit: seq<JoinedSample> -> LinearFit)
    : (r: seq<Correlation>)
    ensures |r| <= |metrics|
  {
    FlatMapBound(metrics, EmitFor(merged, fit));
    FlatMap(metrics, EmitFor(merged, fit))
  }

  /** `Emitted` as a function of the metric alone. */
  function EmitFor(merged: seq<JoinedSample>, fit: seq<JoinedSample> -> LinearFit): (f: string -> seq<Correlation>)
    ensures forall m :: f(m) == Emitted(m, merged, fit)
  {
    m => Emitted(m, merged, fit)
  }

  /** The records are the fit records of the metrics with at least
      `MinSamples` joined rows, taken in the order of `metrics`: `idx` gives,
      for each record, the position of its metric in `metrics`. */
  lemma CorrelationIndices(metrics: seq<string>, merged: seq<JoinedSample>, fit: seq<JoinedSample> -> LinearFit)
    returns (idx: seq<nat>)
    ensures var r := Correlations(metrics, merged, fit);
      && |idx| == |r|
      && (forall k :: 0 <= k < |r| ==>
            && idx[k] < |metrics|
            && |Group(merged, metrics[idx[k]])| >= MinSamples
            && r[k] == FitRecord(metrics[idx[k]], merged, fit))
      && (forall k1, k2 :: 0 <= k1 < k2 < |idx| ==> idx[k1] < idx[k2])
      && (forall i :: 0 <= i < |metrics| && |Group(merged, metrics[i])| >= MinSamples ==> i in idx)
  {
    var f := EmitFor(merged, fit);
    assert forall m :: f(m) == Emitted(m, merged, fit);
    idx := FlatMapIndices(metrics, f);
  }

  /** `correlate_business_ai_metrics` with the infrastructure rows and the
      fitting procedure passed in. An empty `business_data` builds a frame
      without a "timestamp" column, on which the merge raises KeyError. */
  method CorrelateBusinessAiMetrics(business: seq<BusinessObservation>, infra: seq<InfraObservation>,
                                    fit: seq<JoinedSample> -> LinearFit)
    returns (r: Result<seq<Correlation>, Exception>)
    ensures business == [] ==> r == Err(KeyError("timestamp"))
    ensures business != [] ==> r == Ok(Correlations(Distinct(MetricNames(business)), Join(business, infra), fit))
  {
    if business == [] {
      return Err(KeyError("timestamp"));
    }
    var merged := Join(business, infra);
    var metrics := Distinct(MetricNames(business));
    var correlations: seq<Correlation> := [];
    for i := 0 to |metrics|
      invariant correlations == Correlations(metrics[..i], merged, fit)
    {
      var sub := Group(merged, metrics[i]);
      if |sub| >= MinSamples {
        var model := fit(sub);
        correlations := correlations + [Correlation(metrics[i], model.coeff, model.intercept, model.mse)];
      }
      assert metrics[..i + 1][..i] == metrics[..i];
      assert Correlations(metrics[..i + 1], merged, fit)
          == Correlations(metrics[..i], merged, fit) + EmitFor(merged, fit)(metrics[i]);
    }
    assert metrics[..|metrics|] == metrics;
    return Ok(correlations);
  }

  /** What the correlation returns for non-empty business data: a record for a
      metric exactly when the metric occurs in the business rows and has at
      least five joined rows (four are skipped, five kept); at most one record
      per metric, in order of the metric's first appearance; each record holds
      the fit of that metric's joined rows. */
  lemma CorrelationRecords(business: seq<BusinessObservation>, infra: seq<InfraObservation>,
                           fit: seq<JoinedSample> -> LinearFit)
    ensures var names := MetricNames(business);
      var merged := Join(business, infra);
      var r := Correlations(Distinct(names), merged, fit);
      && (forall m :: (exists k :: 0 <= k < |r| && r[k].metric == m) <==>
                      m in names && |Group(merged, m)| >= MinSamples)
      && (forall i, j :: 0 <= i < j < |r| ==>
            r[i].metric in names && r[j].metric in names
            && FirstIndex(names, r[i].metric) < FirstIndex(names, r[j].metric))
      && (forall k :: 0 <= k < |r| ==> r[k] == FitRecord(r[k].metric, merged, fit))
  {
    var names := MetricNames(business);
    var merged := Join(business, infra);
    RecordsCover(names, merged, fit);
    RecordsOrdered(names, merged, fit);
    RecordsAreFits(Distinct(names), merged, fit);
  }

  /** A metric has a record exactly when it is named and has enough samples. */
  lemma RecordsCover(names: seq<string>, merged: seq<JoinedSample>, fit: seq<JoinedSample> -> LinearFit)
    ensures var r := Correlations(Distinct(names), merged, fit);
      forall m :: (exists k :: 0 <= k < |r| && r[k].metric == m) <==>
                  m in names && |Group(merged, m)| >= MinSamples
  {
    var d := Distinct(names);
    var r := Correlations(d, merged, fit);
    var idx := CorrelationIndices(d, merged, fit);
    forall m | m in names && |Group(merged, m)| >= MinSamples
      ensures exists k :: 0 <= k < |r| && r[k].metric == m
    {
      var i :| 0 <= i < |d| && d[i] == m;
      assert i in idx;
      var k :| 0 <= k < |idx| && idx[k] == i;
      assert r[k].metric == m;
    }
  }

  /** Records follow the first appearance of their metrics in `names`. */
  lemma RecordsOrdered(names: seq<string>, merged: seq<JoinedSample>, fit: seq<JoinedSample> -> LinearFit)
    ensures var r := Correlations(Distinct(names), merged, fit);
      forall i, j :: 0 <= i < j < |r| ==>
        r[i].metric in names && r[j].metric in names
        && FirstIndex(names, r[i].metric) < FirstIndex(names, r[j].metric)
  {
    var d := Distinct(names);
    var r := Correlations(d, merged, fit);
    DistinctOrder(names);
    var idx := CorrelationIndices(d, merged, fit);
    forall i, j | 0 <= i < j < |r|
      ensures r[i].metric in names && r[j].metric in names
              && FirstIndex(names, r[i].metric) < FirstIndex(names, r[j].metric)
    {
      assert idx[i] < idx[j];
      assert r[i].metric == d[idx[i]] && r[j].metric == d[idx[j]];
    }
  }

  /** Every record is the fit of its own metric's group. */
  lemma RecordsAreFits(metrics: seq<string>, merged: seq<JoinedSample>, fit: seq<JoinedSample> -> LinearFit)
    ensures var r := Correlations(metrics, merged, fit);
      forall k :: 0 <= k < |r| ==> r[k] == FitRecord(r[k].metric, merged, fit)
  {
    var idx := CorrelationIndices(metrics, merged, fit);
  }

  /** A metric's group is exactly its joined rows, so the ≥ 5 rule counts
      (business row, infrastructure row) pairs of that metric with equal
      timestamps. */
  lemma GroupMembership(business: seq<BusinessObservation>, infra: seq<InfraObservation>, m: string, x: JoinedSample)
    ensures x in Group(Join(business, infra), m) <==>
      exists j, k :: 0 <= j < |business| && 0 <= k < |infra| && business[j].metricName == m
                     && business[j].timestamp == infra[k].timestamp && x == JoinPair(business[j], infra[k])
  {
    JoinMembership(business, infra, x);
    GroupMembers(Join(business, infra), m, x);
  }

  /** Every record keeps the fit's error, so it is never negative when the
      fitting procedure's never is. */
  lemma CorrelationErrorNonNegative(metrics: seq<string>, merged: seq<JoinedSample>,
                                    fit: seq<JoinedSample> -> LinearFit)
    requires forall s :: fit(s).mse >= 0.0
    ensures forall c :: c in Correlations(metrics, merged, fit) ==> c.mse >= 0.0
  {
    if exists c :: c in Correlations(metrics, merged, fit) && c.mse < 0.0 {
      var c :| c in Correlations(metrics, merged, fit) && c.mse < 0.0;
      CorrelationMember(metrics, merged, fit, c);
    }
  }

  lemma CorrelationMember(metrics: seq<string>, merged: seq<JoinedSample>,
                           fit: seq<JoinedSample> -> LinearFit, c: Correlation)
    requires c in Correlations(metrics, merged, fit)
    ensures c == FitRecord(c.metric, merged, fit)
  {
    var f := EmitFor(merged, fit);
    FlatMapMember(metrics, f, c);
    var i :| 0 <= i < |metrics| && c in f(metrics[i]);
    assert f(metrics[i]) == Emitted(metrics[i], merged, fit);
  }

  // ----- ROI -----

  function Abs(x: real): real { if x < 0.0 then -x else x }

  /** `roi = c['coeff'] / (abs(c['mse']) + 1)`. */
  function RoiScore(c: Correlation): (r: real)
    ensures 0.0 < r <==> 0.0 < c.coeff
    ensures r == 0.0 <==> c.coeff == 0.0
  {
    c.coeff / (Abs(c.mse) + 1.0)
  }

  /** The denominator is at least one, so the score is never larger in
      magnitude than the coefficient, has its sign, is zero exactly when the
      coefficient is, equals it when the error is zero, and multiplying back by
      the denominator recovers the coefficient. */
  lemma RoiScoreProperties(c: Correlation)
    ensures Abs(c.mse) + 1.0 >= 1.0
    ensures RoiScore(c) * (Abs(c.mse) + 1.0) == c.coeff
    ensures Abs(RoiScore(c)) <= Abs(c.coeff)
    ensures RoiScore(c) > 0.0 <==> c.coeff > 0.0
    ensures RoiScore(c) < 0.0 <==> c.coeff < 0.0
    ensures c.mse == 0.0 ==> RoiScore(c) == c.coeff
  {
    var den := Abs(c.mse) + 1.0;
    var r := RoiScore(c);
    assert r * den == c.coeff;
    if r > 0.0 {
      assert r <= r * den;
    } else if r < 0.0 {
      assert r * den <= r;
    }
  }

  /** `calculate_ai_roi`: one score per record, in record order, with the
      metric copied; `business` is accepted but never read. */
  method CalculateAiRoi(business: seq<BusinessObservation>, correlations: seq<Correlation>)
    returns (scores: seq<RoiEntry>)
    ensures |scores| == |correlations|
    ensures forall i :: 0 <= i < |correlations| ==>
      scores[i].metric == correlations[i].metric && scores[i].roiScore == RoiScore(correlations[i])
  {
    scores := [];
    for i := 0 to |correlations|
      invariant |scores| == i
      invariant forall k :: 0 <= k < i ==>
        scores[k].metric == correlations[k].metric && scores[k].roiScore == RoiScore(correlations[k])
    {
      var c := correlations[i];
      var roi := c.coeff / (Abs(c.mse) + 1.0);
      scores := scores + [RoiEntry(c.metric, roi)];
    }
  }

  /** A coefficient of 2 with an error of 1 scores 1. */
  lemma RoiScoreExample()
    ensures RoiScore(Correlation("CSAT", 2.0, 0.0, 1.0)) == 1.0
  {
  }

  // ----- overall ROI -----

  /** The result of `calculate_comprehensive_roi`. */
  datatype RoiSummary = RoiSummary(totalValue: real, totalCost: Option<real>, overallRoi: Option<real>)

  /** `(total_value - total_cost) / total_cost if total_cost else None`;
      `totalCost` is None for a total that is None, which, like zero, is falsy. */
  function OverallRoi(totalValue: real, totalCost: Option<real>): (r: Option<real>)
    ensures r.Some? <==> totalCost.Some? && totalCost.value != 0.0
    ensures r.Some? ==> r.value * totalCost.value == totalValue - totalCost.value
    ensures r.Some? ==> (r.value == 0.0 <==> totalValue == totalCost.value)
  {
    if totalCost.Some? && totalCost.value != 0.0 then Some((totalValue - totalCost.value) / totalCost.value)
    else None
  }

  /** `calculate_comprehensive_roi` with the two sums passed in: both totals
      echoed, and a ratio exactly when the cost is non-zero, which is then the
      net value per unit of cost. */
  function CalculateComprehensiveRoi(totalValue: real, totalCost: Option<real>): (s: RoiSummary)
    ensures s.totalValue == totalValue && s.totalCost == totalCost
    ensures s.overallRoi.Some? <==> totalCost.Some? && totalCost.value != 0.0
    ensures s.overallRoi.Some? ==> totalValue == totalCost.value * (1.0 + s.overallRoi.value)
  {
    RoiSummary(totalValue, totalCost, OverallRoi(totalValue, totalCost))
  }
}
