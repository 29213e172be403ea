/**
 * `detect_anomalies`: a fixed table of threshold rules applied to the
 * billing items, the four monitoring series, the CRM and ERP metrics and the
 * financial summary, whose findings are appended stage by stage to one list.
 * The eight reads and the clock are parameters.
 */
module AnomalyTools {
  import opened Wrappers
  import opened Models
  import opened Sequences

  // ----- inputs -----

  /** A billing usage item; both keys may be absent. */
  datatype CostItem = CostItem(service: Option<string>, cost: Option<real>)

  /** A monitoring point; `value` is read with a default of 0 by the filter. */
  datatype MetricPoint = MetricPoint(timestamp: string, value: Option<real>)

  /** A CRM or ERP metric record. The code subscripts all three keys, so a
      record without one raises KeyError; the model takes them as present. */
  datatype KpiObservation = KpiObservation(metricName: string, metricValue: real, timestamp: string)

  // ----- stages and their kinds -----

  const CostSpike := "Cost Spike"
  const LowCsat := "Low CSAT"
  const LowConversion := "Low Conversion Rate"
  const FulfillmentDelay := "Fulfillment Delay"
  const BudgetOverrun := "Budget Overrun"
  const LowSavings := "Low Savings"

  /** A monitoring rule: points above `threshold` are reported, with
      `severe` above `severeAbove` and `mild` otherwise. */
  datatype SpikeRule = SpikeRule(kind: string, component: string, action: string,
                                 threshold: real, severeAbove: real, severe: Severity, mild: Severity)

  const CpuRule := SpikeRule("CPU Spike", "Compute Engine Instance", "Scale down or optimize workloads",
                             0.90, 0.85, High, Low)
  const MemoryRule := SpikeRule("Memory Spike", "Compute Engine Instance",
                                "Investigate memory leaks or increase instance size", 0.90, 0.85, High, Low)
  const DiskRule := SpikeRule("Disk I/O Anomaly", "Compute Engine Disk",
                              "Check disk performance or scale disk throughput", 200.0, 300.0, Moderate, Low)
  const NetworkRule := SpikeRule("Network Traffic Spike", "Compute Engine Network",
                                 "Validate expected workload patterns or check for data exfiltration",
                                 5000000.0, 10000000.0, High, Low)

  /** The position of a kind's stage in the output (0 for kinds no stage makes). */
  function StageOf(kind: string): nat {
    if kind == CostSpike then 1
    else if kind == CpuRule.kind then 2
    else if kind == MemoryRule.kind then 3
    else if kind == DiskRule.kind then 4
    else if kind == NetworkRule.kind then 5
    else if kind == LowCsat || kind == LowConversion then 6
    else if kind == FulfillmentDelay then 7
    else if kind == BudgetOverrun || kind == LowSavings then 8
    else 0
  }

  /** Each kind the detector makes has its own stage, in output order. */
  lemma StageTable()
    ensures StageOf(CostSpike) == 1 && StageOf(CpuRule.kind) == 2 && StageOf(MemoryRule.kind) == 3
    ensures StageOf(DiskRule.kind) == 4 && StageOf(NetworkRule.kind) == 5
    ensures StageOf(LowCsat) == 6 && StageOf(LowConversion) == 6 && StageOf(FulfillmentDelay) == 7
    ensures StageOf(BudgetOverrun) == 8 && StageOf(LowSavings) == 8
  {
  }

  // ----- 1. cost -----

  /** One billing item: reported when its cost (0 when absent) exceeds 40000,
      as Critical above 50000 and Moderate otherwise; a reported item without
      a service cannot become an `Anomaly`, whose component is a string. */
  function CostAnomaly(item: CostItem, now: string): (r: Result<seq<Anomaly>, Exception>)
    ensures r.Err? <==> item.cost.GetOr(0.0) > 40000.0 && item.service.None?
    ensures r.Err? ==> r.error == ValidationError("affected_component")
    ensures r.Ok? ==> (r.value != [] <==> item.cost.GetOr(0.0) > 40000.0)
    ensures r.Ok? && r.value != [] ==>
      && |r.value| == 1
      && r.value[0].kind == CostSpike
      && r.value[0].timestamp == now
      && Some(r.value[0].affectedComponent) == item.service
      && (r.value[0].severity == Critical <==> item.cost.GetOr(0.0) > 50000.0)
      && (r.value[0].severity != Critical ==> r.value[0].severity == Moderate)
  {
    var cost := item.cost.GetOr(0.0);
    if cost > 40000.0 then
      if item.service.None? then Err(ValidationError("affected_component"))
      else
        Ok([Anomaly(CostSpike, now, item.service.value, if cost > 50000.0 then Critical else Moderate,
                    "Review billing details and scaling policies")])
    else Ok([])
  }

  /** The cost comprehension; it fails at the first item that fails. */
  function CostAnomalies(items: seq<CostItem>, now: string): (r: Result<seq<Anomaly>, Exception>)
    ensures r.Err? ==> r.error == ValidationError("affected_component")
    ensures r.Ok? ==> forall a :: a in r.value ==> a.timestamp == now
    decreases |items|
  {
    if items == [] then Ok([])
    else
      match CostAnomalies(items[..|items| - 1], now)
      case Err(e) => Err(e)
      case Ok(prefix) =>
        match CostAnomaly(items[|items| - 1], now)
        case Err(e) => Err(e)
        case Ok(last) => Ok(prefix + last)
  }

  /** The cost stage fails exactly when some reported item has no service;
      otherwise it reports at most once per item, only Cost Spikes. */
  lemma {:induction false} CostAnomaliesShape(items: seq<CostItem>, now: string)
    ensures CostAnomalies(items, now).Err? <==>
      exists i :: 0 <= i < |items| && items[i].cost.GetOr(0.0) > 40000.0 && items[i].service.None?
    ensures CostAnomalies(items, now).Ok? ==>
      && |CostAnomalies(items, now).value| <= |items|
      && forall a :: a in CostAnomalies(items, now).value ==> a.kind == CostSpike
    decreases |items|
  {
    if items != [] {
      var n := |items|;
      var prefix := items[..n - 1];
      CostAnomaliesShape(prefix, now);
      assert forall i :: 0 <= i < n - 1 ==> prefix[i] == items[i];
      if exists i :: 0 <= i < n - 1 && prefix[i].cost.GetOr(0.0) > 40000.0 && prefix[i].service.None? {
        var i :| 0 <= i < n - 1 && prefix[i].cost.GetOr(0.0) > 40000.0 && prefix[i].service.None?;
        assert items[i] == prefix[i];
      }
    }
  }

  /** What one item contributes to a successful cost stage. */
  function CostReports(now: string): CostItem -> seq<Anomaly> {
    item => if CostAnomaly(item, now).Ok? then CostAnomaly(item, now).value else []
  }

  /** A successful cost stage is each item's report (none or one), concatenated
      in the order of the billing items. */
  lemma {:induction false} CostAnomaliesInOrder(items: seq<CostItem>, now: string)
    ensures CostAnomalies(items, now).Ok? ==> CostAnomalies(items, now).value == FlatMap(items, CostReports(now))
    decreases |items|
  {
    if items != [] {
      CostAnomaliesInOrder(items[..|items| - 1], now);
    }
  }

  // ----- 2.-5. monitoring series -----

  /** One point of a series: reported when its value (0 when absent) exceeds
      the rule's threshold. */
  function SpikeAnomaly(rule: SpikeRule, pt: MetricPoint): (r: seq<Anomaly>)
    ensures |r| <= 1
    ensures r != [] <==> pt.value.GetOr(0.0) > rule.threshold
    ensures r != [] ==>
      && r[0].kind == rule.kind && r[0].timestamp == pt.timestamp
      && r[0].affectedComponent == rule.component && r[0].suggestedAction == rule.action
  {
    var v := pt.value.GetOr(0.0);
    if v > rule.threshold then
      [Anomaly(rule.kind, pt.timestamp, rule.component, if v > rule.severeAbove then rule.severe else rule.mild,
               rule.action)]
    else []
  }

  function Spikes(rule: SpikeRule, pts: seq<MetricPoint>): (r: seq<Anomaly>)
    ensures forall a :: a in r ==>
      a.kind == rule.kind && a.affectedComponent == rule.component && a.suggestedAction == rule.action
  {
    var f := pt => SpikeAnomaly(rule, pt);
    assert forall a :: a in FlatMap(pts, f) ==>
      a.kind == rule.kind && a.affectedComponent == rule.component && a.suggestedAction == rule.action
    by {
      forall a | a in FlatMap(pts, f)
        ensures a.kind == rule.kind && a.affectedComponent == rule.component && a.suggestedAction == rule.action
      {
        FlatMapMember(pts, f, a);
      }
    }
    FlatMap(pts, f)
  }

  /** CPU and memory points are only reported above 0.90, so the 0.85 cut-off
      never yields Low: their severity is always High. */
  lemma UtilisationAlwaysHigh(pt: MetricPoint)
    ensures forall a :: a in SpikeAnomaly(CpuRule, pt) ==> a.severity == High
    ensures forall a :: a in SpikeAnomaly(MemoryRule, pt) ==> a.severity == High
  {
  }

  /** Disk points are reported above 200 seconds, Moderate above 300 and
      Low otherwise; network points above 5e6 bytes, High above 1e7 and Low
      otherwise. */
  lemma DiskAndNetworkSeverity(pt: MetricPoint)
    ensures var v := pt.value.GetOr(0.0);
      var d := SpikeAnomaly(DiskRule, pt);
      && (d != [] <==> v > 200.0)
      && (d != [] ==> (d[0].severity == Moderate <==> v > 300.0) && (d[0].severity == Low <==> v <= 300.0))
    ensures var v := pt.value.GetOr(0.0);
      var n := SpikeAnomaly(NetworkRule, pt);
      && (n != [] <==> v > 5000000.0)
      && (n != [] ==> (n[0].severity == High <==> v > 10000000.0) && (n[0].severity == Low <==> v <= 10000000.0))
  {
  }

  // ----- 6.-7. CRM and ERP -----

  /** One CRM record: "csat" below 3.0 and "lead_conversion" below 0.05 are
      reported; any other name is not. */
  function CrmAnomaly(m: KpiObservation): (r: seq<Anomaly>)
    ensures |r| <= 1
    ensures forall a :: a in r ==> a.timestamp == m.timestamp && a.affectedComponent == "CRM"
  {
    (if m.metricName == "csat" && m.metricValue < 3.0
     then [Anomaly(LowCsat, m.timestamp, "CRM", High, "Investigate customer feedback and complaints")]
     else [])
    + (if m.metricName == "lead_conversion" && m.metricValue < 0.05
       then [Anomaly(LowConversion, m.timestamp, "CRM", Moderate, "Audit sales funnel and lead qualification process")]
       else [])
  }

  /** One ERP record: "order_fulfillment_time" above 7 days is reported. */
  function ErpAnomaly(m: KpiObservation): (r: seq<Anomaly>)
    ensures |r| <= 1
    ensures forall a :: a in r ==> a.timestamp == m.timestamp && a.affectedComponent == "ERP"
  {
    if m.metricName == "order_fulfillment_time" && m.metricValue > 7.0
    then [Anomaly(FulfillmentDelay, m.timestamp, "ERP", High, "Check supply chain bottlenecks")]
    else []
  }

  /** A CRM record yields at most one report: a low CSAT for "csat" below 3,
      a low conversion rate for "lead_conversion" below 0.05, nothing for other
      names. An ERP record yields a fulfillment delay exactly when it is
      "order_fulfillment_time" above 7. */
  lemma KpiRules(m: KpiObservation)
    ensures |CrmAnomaly(m)| <= 1 && |ErpAnomaly(m)| <= 1
    ensures CrmAnomaly(m) != [] <==>
      (m.metricName == "csat" && m.metricValue < 3.0) || (m.metricName == "lead_conversion" && m.metricValue < 0.05)
    ensures CrmAnomaly(m) != [] && m.metricName == "csat" ==>
      CrmAnomaly(m)[0].kind == LowCsat && CrmAnomaly(m)[0].severity == High
    ensures CrmAnomaly(m) != [] && m.metricName == "lead_conversion" ==>
      CrmAnomaly(m)[0].kind == LowConversion && CrmAnomaly(m)[0].severity == Moderate
    ensures ErpAnomaly(m) != [] <==> m.metricName == "order_fulfillment_time" && m.metricValue > 7.0
    ensures ErpAnomaly(m) != [] ==> ErpAnomaly(m)[0].kind == FulfillmentDelay && ErpAnomaly(m)[0].severity == High
  {
  }

  // ----- 8. finance -----

  predicate BudgetFires(fin: Financials) { Lookup(fin.entries, "budget").GetOr(0.0) > 1000000.0 }

  predicate SavingsFires(fin: Financials) { Lookup(fin.entries, "savings").GetOr(0.0) < 10000.0 }

  /** The two financial rules (absent values read as 0); each report reads
      the dictionary's "timestamp", which fails when it is absent. */
  function FinanceAnomalies(fin: Financials): (r: Result<seq<Anomaly>, Exception>)
    ensures r.Err? <==> (BudgetFires(fin) || SavingsFires(fin)) && fin.timestamp.None?
    ensures r.Err? ==> r.error == KeyError("timestamp")
    ensures r.Ok? ==> |r.value| <= 2
    ensures r.Ok? ==> forall a :: a in r.value ==> a.kind == BudgetOverrun || a.kind == LowSavings
    ensures r.Ok? ==> ((exists i :: 0 <= i < |r.value| && r.value[i].kind == BudgetOverrun) <==> BudgetFires(fin))
    ensures r.Ok? ==> ((exists i :: 0 <= i < |r.value| && r.value[i].kind == LowSavings) <==> SavingsFires(fin))
    ensures r.Ok? && r.value != [] ==>
      && fin.timestamp.Some?
      && forall a :: a in r.value ==>
        && a.timestamp == fin.timestamp.value
        && a.affectedComponent == "Finance"
        && (a.kind == BudgetOverrun ==> a.severity == Critical)
        && (a.kind == LowSavings ==> a.severity == Moderate)
    ensures r.Ok? && |r.value| == 2 ==> r.value[0].kind == BudgetOverrun && r.value[1].kind == LowSavings
  {
    if !BudgetFires(fin) && !SavingsFires(fin) then Ok([])
    else if fin.timestamp.None? then Err(KeyError("timestamp"))
    else
      var budget := BudgetAnomaly(fin.timestamp.value);
      var savings := SavingsAnomaly(fin.timestamp.value);
      assert budget.kind != savings.kind;
      if BudgetFires(fin) && SavingsFires(fin) then
        assert [budget, savings][0] == budget && [budget, savings][1] == savings;
        Ok([budget, savings])
      else if BudgetFires(fin) then
        assert [budget][0] == budget;
        Ok([budget])
      else
        assert [savings][0] == savings;
        Ok([savings])
  }

  function BudgetAnomaly(timestamp: string): Anomaly {
    Anomaly(BudgetOverrun, timestamp, "Finance", Critical, "Review expenditure and reallocate resources")
  }

  function SavingsAnomaly(timestamp: string): Anomaly {
    Anomaly(LowSavings, timestamp, "Finance", Moderate, "Investigate cost-saving strategies")
  }

  /** Without a "savings" entry the savings rule always fires. */
  lemma MissingSavingsFires(fin: Financials)
    requires forall i :: 0 <= i < |fin.entries| ==> fin.entries[i].0 != "savings"
    ensures SavingsFires(fin)
    ensures fin.timestamp.Some? ==>
      exists i :: 0 <= i < |FinanceAnomalies(fin).value| && FinanceAnomalies(fin).value[i].kind == LowSavings
  {
    assert Lookup(fin.entries, "savings") == None;
    if fin.timestamp.Some? {
      var r := FinanceAnomalies(fin);
      assert r.Ok?;
      assert exists i :: 0 <= i < |r.value| && r.value[i].kind == LowSavings;
    }
  }

  // ----- the whole detector -----

  /** What `detect_anomalies` returns: the eight stages in their fixed order. */
  function Detected(now: string, costData: seq<CostItem>, cpu: seq<MetricPoint>, memory: seq<MetricPoint>,
                    disk: seq<MetricPoint>, network: seq<MetricPoint>, crm: seq<KpiObservation>,
                    erp: seq<KpiObservation>, fin: Financials): (r: Result<seq<Anomaly>, Exception>)
    ensures r.Ok? ==> CostAnomalies(costData, now).Ok? && CostAnomalies(costData, now).value <= r.value
    ensures r.Ok? ==>
      && FinanceAnomalies(fin).Ok?
      && |FinanceAnomalies(fin).value| <= |r.value|
      && r.value[|r.value| - |FinanceAnomalies(fin).value|..] == FinanceAnomalies(fin).value
  {
    match CostAnomalies(costData, now)
    case Err(e) => Err(e)
    case Ok(cost) =>
      match FinanceAnomalies(fin)
      case Err(e) => Err(e)
      case Ok(finance) =>
        Ok(cost + Spikes(CpuRule, cpu) + Spikes(MemoryRule, memory) + Spikes(DiskRule, disk)
           + Spikes(NetworkRule, network) + FlatMap(crm, CrmAnomaly) + FlatMap(erp, ErpAnomaly) + finance)
  }

  // ----- properties of the whole detector -----

  /** The stage of every report is no earlier than that of the reports
      before it. */
  predicate StagesOrdered(s: seq<Anomaly>) {
    forall i, j :: 0 <= i < j < |s| ==> StageOf(s[i].kind) <= StageOf(s[j].kind)
  }

  predicate InStage(s: seq<Anomaly>, k: nat) {
    forall a :: a in s ==> StageOf(a.kind) == k
  }

  predicate UpToStage(s: seq<Anomaly>, k: nat) {
    forall a :: a in s ==> 1 <= StageOf(a.kind) <= k
  }

  lemma ExtendStages(prefix: seq<Anomaly>, stage: seq<Anomaly>, k: nat)
    requires 1 <= k
    requires StagesOrdered(prefix) && UpToStage(prefix, k) && InStage(stage, k)
    ensures StagesOrdered(prefix + stage) && UpToStage(prefix + stage, k)
  {
    var s := prefix + stage;
    forall i, j | 0 <= i < j < |s|
      ensures StageOf(s[i].kind) <= StageOf(s[j].kind)
    {
      if j < |prefix| {
        assert s[i] == prefix[i] && s[j] == prefix[j];
      } else if i < |prefix| {
        assert s[i] == prefix[i] && s[i] in prefix;
        assert s[j] == stage[j - |prefix|] && s[j] in stage;
      } else {
        assert s[i] == stage[i - |prefix|] && s[i] in stage;
        assert s[j] == stage[j - |prefix|] && s[j] in stage;
      }
    }
  }

  /** A stage whose rule only makes kinds of stage `k` is all of stage `k`. */
  lemma {:induction false} FlatMapInStage<T>(s: seq<T>, f: T -> seq<Anomaly>, k: nat)
    requires forall x, a :: a in f(x) ==> StageOf(a.kind) == k
    ensures InStage(FlatMap(s, f), k)
    decreases |s|
  {
    if s != [] {
      FlatMapInStage(s[..|s| - 1], f, k);
    }
  }

  lemma SpikesInStage(rule: SpikeRule, pts: seq<MetricPoint>, k: nat)
    requires StageOf(rule.kind) == k
    ensures InStage(Spikes(rule, pts), k)
  {
    var f := pt => SpikeAnomaly(rule, pt);
    forall x, a | a in f(x)
      ensures StageOf(a.kind) == k
    {
      assert f(x) == SpikeAnomaly(rule, x);
    }
    FlatMapInStage(pts, f, k);
  }

  lemma {:induction false} CostInStage(items: seq<CostItem>, now: string)
    requires CostAnomalies(items, now).Ok?
    ensures InStage(CostAnomalies(items, now).value, 1)
  {
    CostAnomaliesShape(items, now);
  }

  lemma KpiInStage(crm: seq<KpiObservation>, erp: seq<KpiObservation>)
    ensures InStage(FlatMap(crm, CrmAnomaly), 6)
    ensures InStage(FlatMap(erp, ErpAnomaly), 7)
  {
    StageTable();
    forall x, a | a in CrmAnomaly(x)
      ensures StageOf(a.kind) == 6
    {
    }
    FlatMapInStage(crm, CrmAnomaly, 6);
    FlatMapInStage(erp, ErpAnomaly, 7);
  }

  lemma FinanceInStage(fin: Financials)
    ensures FinanceAnomalies(fin).Ok? ==> InStage(FinanceAnomalies(fin).value, 8)
  {
    StageTable();
  }

  /** Eight stage lists concatenated in stage order are in stage order. */
  lemma ConcatStages(cost: seq<Anomaly>, cpu: seq<Anomaly>, memory: seq<Anomaly>, disk: seq<Anomaly>,
                     network: seq<Anomaly>, crm: seq<Anomaly>, erp: seq<Anomaly>, finance: seq<Anomaly>)
    requires InStage(cost, 1) && InStage(cpu, 2) && InStage(memory, 3) && InStage(disk, 4)
    requires InStage(network, 5) && InStage(crm, 6) && InStage(erp, 7) && InStage(finance, 8)
    ensures var all := cost + cpu + memory + disk + network + crm + erp + finance;
      StagesOrdered(all) && UpToStage(all, 8)
  {
    ExtendStages([], cost, 1);
    assert [] + cost == cost;
    var s := cost;
    ExtendStages(s, cpu, 2);
    s := s + cpu;
    ExtendStages(s, memory, 3);
    s := s + memory;
    ExtendStages(s, disk, 4);
    s := s + disk;
    ExtendStages(s, network, 5);
    s := s + network;
    ExtendStages(s, crm, 6);
    s := s + crm;
    ExtendStages(s, erp, 7);
    s := s + erp;
    ExtendStages(s, finance, 8);
  }

  /** The reports come out stage by stage: cost spikes first, then CPU,
      memory, disk and network spikes, then CRM, ERP and finance reports;
      every report belongs to one of these stages. */
  lemma DetectedStageOrder(now: string, costData: seq<CostItem>, cpu: seq<MetricPoint>, memory: seq<MetricPoint>,
                           disk: seq<MetricPoint>, network: seq<MetricPoint>, crm: seq<KpiObservation>,
                           erp: seq<KpiObservation>, fin: Financials)
    ensures var r := Detected(now, costData, cpu, memory, disk, network, crm, erp, fin);
      r.Ok? ==> StagesOrdered(r.value) && UpToStage(r.value, 8)
  {
    var cost := CostAnomalies(costData, now);
    var finance := FinanceAnomalies(fin);
    if cost.Ok? && finance.Ok? {
      StageTable();
      CostInStage(costData, now);
      SpikesInStage(CpuRule, cpu, 2);
      SpikesInStage(MemoryRule, memory, 3);
      SpikesInStage(DiskRule, disk, 4);
      SpikesInStage(NetworkRule, network, 5);
      KpiInStage(crm, erp);
      FinanceInStage(fin);
      ConcatStages(cost.value, Spikes(CpuRule, cpu), Spikes(MemoryRule, memory), Spikes(DiskRule, disk),
                   Spikes(NetworkRule, network), FlatMap(crm, CrmAnomaly), FlatMap(erp, ErpAnomaly), finance.value);
    }
  }

  /** Every input element yields at most one report and finance at most two,
      so the detector reports at most the total input length plus two. */
  lemma DetectedBound(now: string, costData: seq<CostItem>, cpu: seq<MetricPoint>, memory: seq<MetricPoint>,
                      disk: seq<MetricPoint>, network: seq<MetricPoint>, crm: seq<KpiObservation>,
                      erp: seq<KpiObservation>, fin: Financials)
    ensures var r := Detected(now, costData, cpu, memory, disk, network, crm, erp, fin);
      r.Ok? ==> |r.value| <= |costData| + |cpu| + |memory| + |disk| + |network| + |crm| + |erp| + 2
  {
    if CostAnomalies(costData, now).Ok? && FinanceAnomalies(fin).Ok? {
      CostAnomaliesShape(costData, now);
      SpikesBound(CpuRule, cpu);
      SpikesBound(MemoryRule, memory);
      SpikesBound(DiskRule, disk);
      SpikesBound(NetworkRule, network);
      forall x ensures |CrmAnomaly(x)| <= 1 && |ErpAnomaly(x)| <= 1 {
        KpiRules(x);
      }
      FlatMapBound(crm, CrmAnomaly);
      FlatMapBound(erp, ErpAnomaly);
    }
  }

  lemma SpikesBound(rule: SpikeRule, pts: seq<MetricPoint>)
    ensures |Spikes(rule, pts)| <= |pts|
  {
    var f := pt => SpikeAnomaly(rule, pt);
    forall x ensures |f(x)| <= 1 {
      assert f(x) == SpikeAnomaly(rule, x);
    }
    FlatMapBound(pts, f);
  }

  /** The detector fails exactly when a reported billing item has no service
      (a validation error, raised first) or when a financial rule fires without
      a timestamp (a missing key). */
  lemma DetectedFailure(now: string, costData: seq<CostItem>, cpu: seq<MetricPoint>, memory: seq<MetricPoint>,
                        disk: seq<MetricPoint>, network: seq<MetricPoint>, crm: seq<KpiObservation>,
                        erp: seq<KpiObservation>, fin: Financials)
    ensures var r := Detected(now, costData, cpu, memory, disk, network, crm, erp, fin);
      var costFails := exists i :: 0 <= i < |costData| && costData[i].cost.GetOr(0.0) > 40000.0
                                   && costData[i].service.None?;
      && (r.Err? <==> costFails || ((BudgetFires(fin) || SavingsFires(fin)) && fin.timestamp.None?))
      && (r.Err? && costFails ==> r.error.ValidationError?)
      && (r.Err? && !costFails ==> r.error == KeyError("timestamp"))
  {
    CostAnomaliesShape(costData, now);
    CostErrorKind(costData, now);
  }

  lemma {:induction false} CostErrorKind(items: seq<CostItem>, now: string)
    ensures CostAnomalies(items, now).Err? ==> CostAnomalies(items, now).error.ValidationError?
    decreases |items|
  {
    if items != [] {
      CostErrorKind(items[..|items| - 1], now);
    }
  }

  /** `detect_anomalies`: each stage's reports are appended to one list. */
  method DetectAnomalies(now: string, costData: seq<CostItem>, cpu: seq<MetricPoint>, memory: seq<MetricPoint>,
                         disk: seq<MetricPoint>, network: seq<MetricPoint>, crm: seq<KpiObservation>,
                         erp: seq<KpiObservation>, fin: Financials)
    returns (r: Result<seq<Anomaly>, Exception>)
    ensures r == Detected(now, costData, cpu, memory, disk, network, crm, erp, fin)
  {
    var cost := CostAnomalies(costData, now);
    if cost.Err? {
      return Err(cost.error);
    }
    var anomalies := cost.value;
    anomalies := anomalies + Spikes(CpuRule, cpu);
    anomalies := anomalies + Spikes(MemoryRule, memory);
    anomalies := anomalies + Spikes(DiskRule, disk);
    anomalies := anomalies + Spikes(NetworkRule, network);

    anomalies := AppendCrmAnomalies(anomalies, crm);
    anomalies := AppendErpAnomalies(anomalies, erp);
    r := AppendFinanceAnomalies(anomalies, fin);
  }

  /** Stage 6: the loop over the CRM records. */
  method AppendCrmAnomalies(anomalies: seq<Anomaly>, crm: seq<KpiObservation>) returns (out: seq<Anomaly>)
    ensures out == anomalies + FlatMap(crm, CrmAnomaly)
  {
    out := anomalies;
    for i := 0 to |crm|
      invariant out == anomalies + FlatMap(crm[..i], CrmAnomaly)
    {
      var m := crm[i];
      var before := out;
      assert crm[..i + 1][..i] == crm[..i];
      assert FlatMap(crm[..i + 1], CrmAnomaly) == FlatMap(crm[..i], CrmAnomaly) + CrmAnomaly(m);
      if m.metricName == "csat" && m.metricValue < 3.0 {
        out := out + [Anomaly(LowCsat, m.timestamp, "CRM", High, "Investigate customer feedback and complaints")];
      }
      if m.metricName == "lead_conversion" && m.metricValue < 0.05 {
        out := out + [Anomaly(LowConversion, m.timestamp, "CRM", Moderate,
                              "Audit sales funnel and lead qualification process")];
      }
      assert out == before + CrmAnomaly(m);
    }
    assert crm[..|crm|] == crm;
  }

  /** Stage 7: the loop over the ERP records. */
  method AppendErpAnomalies(anomalies: seq<Anomaly>, erp: seq<KpiObservation>) returns (out: seq<Anomaly>)
    ensures out == anomalies + FlatMap(erp, ErpAnomaly)
  {
    out := anomalies;
    for i := 0 to |erp|
      invariant out == anomalies + FlatMap(erp[..i], ErpAnomaly)
    {
      var m := erp[i];
      assert erp[..i + 1][..i] == erp[..i];
      assert FlatMap(erp[..i + 1], ErpAnomaly) == FlatMap(erp[..i], ErpAnomaly) + ErpAnomaly(m);
      if m.metricName == "order_fulfillment_time" && m.metricValue > 7.0 {
        out := out + [Anomaly(FulfillmentDelay, m.timestamp, "ERP", High, "Check supply chain bottlenecks")];
      }
    }
    assert erp[..|erp|] == erp;
  }

  /** Stage 8: the two financial rules, each reading the timestamp. */
  method AppendFinanceAnomalies(anomalies: seq<Anomaly>, fin: Financials) returns (r: Result<seq<Anomaly>, Exception>)
    ensures r == match FinanceAnomalies(fin)
                 case Err(e) => Err(e)
                 case Ok(finance) => Ok(anomalies + finance)
  {
    var out := anomalies;
    if BudgetFires(fin) {
      if fin.timestamp.None? {
        return Err(KeyError("timestamp"));
      }
      out := out + [BudgetAnomaly(fin.timestamp.value)];
    }
    if SavingsFires(fin) {
      if fin.timestamp.None? {
        return Err(KeyError("timestamp"));
      }
      out := out + [SavingsAnomaly(fin.timestamp.value)];
    }
    if BudgetFires(fin) && SavingsFires(fin) {
      var both := [BudgetAnomaly(fin.timestamp.value), SavingsAnomaly(fin.timestamp.value)];
      assert FinanceAnomalies(fin) == Ok(both);
      assert out == anomalies + both;
    } else if BudgetFires(fin) {
      assert FinanceAnomalies(fin) == Ok([BudgetAnomaly(fin.timestamp.value)]);
    } else if SavingsFires(fin) {
      assert FinanceAnomalies(fin) == Ok([SavingsAnomaly(fin.timestamp.value)]);
    } else {
      assert FinanceAnomalies(fin) == Ok([]);
      assert out == anomalies + [];
    }
    r := Ok(out);
  }
}
