/**
 * `BusinessMetricsAgent`: every `get_*` tool persists a list of business
 * metric records into "business_metrics" and returns the same records as
 * `BusinessKPIData`; `get_financials` first turns the financial summary into
 * such records. The insert is an output of the functions here, not state.
 */
module BusinessMetricsAgent {
  import opened Wrappers
  import opened Models

  const MetricsTable := "business_metrics"

  /** What a `get_*` tool does: the insert it makes and the list it returns. */
  datatype Persisted = Persisted(insert: InsertCall, returned: seq<BusinessKpiData>)

  /** `BusinessKPIData(**r)`: the model ignores keys it does not declare, and
      of a business metric record it declares only "timestamp". */
  function KpiFromRecord(r: Row): (k: BusinessKpiData)
    ensures k.timestamp == Some(r.timestamp)
    ensures k.mrr.None? && k.arr.None? && k.ltv.None? && k.churnRate.None?
    ensures k.csat.None? && k.nps.None? && k.opsCost.None?
  {
    BusinessKpiData(None, None, None, None, None, None, None, Some(r.timestamp))
  }

  /** The shared tail of every `get_*` tool: insert the records, then return
      one KPI object per record, so persisted and returned counts match. */
  function PersistAndReturn(records: seq<Row>): (p: Persisted)
    ensures p.insert.table == MetricsTable && p.insert.rows == records
    ensures |p.returned| == |records|
    ensures forall i :: 0 <= i < |records| ==> p.returned[i] == KpiFromRecord(records[i])
  {
    Persisted(InsertCall(MetricsTable, records),
              seq(|records|, i requires 0 <= i < |records| => KpiFromRecord(records[i])))
  }

  // ----- get_financials -----

  /** `k in ['budget', 'savings']`. */
  predicate IsFinanceKey(k: string) { k == "budget" || k == "savings" }

  function FinanceRecord(key: string, value: real, timestamp: string): (row: Row)
    ensures row.BusinessMetricRow? && row.metricName == key && row.metricValue == value
    ensures row.timestamp == timestamp && row.metricUnit == "USD" && row.businessUnit == "Finance"
  {
    BusinessMetricRow(key, value, "USD", timestamp, "Finance", None, Some([]))
  }

  /** The comprehension over `data.items()`: one record per "budget" or
      "savings" entry, in dictionary order, each reading `data['timestamp']`. */
  function FinanceRecords(entries: seq<(string, real)>, timestamp: Option<string>): (r: Result<seq<Row>, Exception>)
    ensures r.Err? ==> r.error == KeyError("timestamp") && timestamp.None?
    ensures r.Ok? ==> |r.value| <= |entries|
    decreases |entries|
  {
    if entries == [] then Ok([])
    else
      var last := entries[|entries| - 1];
      match FinanceRecords(entries[..|entries| - 1], timestamp)
      case Err(e) => Err(e)
      case Ok(prefix) =>
        if !IsFinanceKey(last.0) then Ok(prefix)
        else if timestamp.None? then Err(KeyError("timestamp"))
        else Ok(prefix + [FinanceRecord(last.0, last.1, timestamp.value)])
  }

  /** `get_financials` on the dictionary the financial integration returned. */
  function GetFinancials(data: Financials): (r: Result<Persisted, Exception>)
    ensures r.Err? <==> FinanceRecords(data.entries, data.timestamp).Err?
    ensures r.Ok? ==> r.value == PersistAndReturn(FinanceRecords(data.entries, data.timestamp).value)
  {
    match FinanceRecords(data.entries, data.timestamp)
    case Err(e) => Err(e)
    case Ok(records) => Ok(PersistAndReturn(records))
  }

  /** A missing "timestamp" fails only when some "budget" or "savings" entry
      is present, since it is read once per record. */
  lemma {:induction false} FinanceRecordsFailure(entries: seq<(string, real)>, timestamp: Option<string>)
    ensures FinanceRecords(entries, timestamp).Err? <==>
      timestamp.None? && exists i :: 0 <= i < |entries| && IsFinanceKey(entries[i].0)
    ensures FinanceRecords(entries, timestamp).Err? ==> FinanceRecords(entries, timestamp).error == KeyError("timestamp")
    decreases |entries|
  {
    if entries != [] {
      var n := |entries|;
      var prefix := entries[..n - 1];
      FinanceRecordsFailure(prefix, timestamp);
      assert forall i :: 0 <= i < n - 1 ==> prefix[i] == entries[i];
      if exists i :: 0 <= i < n && IsFinanceKey(entries[i].0) {
        var i :| 0 <= i < n && IsFinanceKey(entries[i].0);
        if i < n - 1 {
          assert IsFinanceKey(prefix[i].0);
        }
      }
    }
  }

  /** The records are exactly the "budget" and "savings" entries, in order:
      `idx` gives the entry each record comes from. Every record is in US
      dollars, for the Finance unit, without an AI system, with empty metadata
      and with the dictionary's timestamp. */
  lemma {:induction false} FinanceRecordsIndices(entries: seq<(string, real)>, timestamp: string)
    returns (idx: seq<nat>)
    ensures FinanceRecords(entries, Some(timestamp)).Ok?
    ensures var rows := FinanceRecords(entries, Some(timestamp)).value;
      && |idx| == |rows|
      && (forall k :: 0 <= k < |idx| ==>
            && idx[k] < |entries|
            && IsFinanceKey(entries[idx[k]].0)
            && rows[k] == BusinessMetricRow(entries[idx[k]].0, entries[idx[k]].1, "USD", timestamp, "Finance",
                                            None, Some([])))
      && (forall k1, k2 :: 0 <= k1 < k2 < |idx| ==> idx[k1] < idx[k2])
      && (forall i :: 0 <= i < |entries| && IsFinanceKey(entries[i].0) ==> i in idx)
    decreases |entries|
  {
    if entries == [] {
      idx := [];
    } else {
      var n := |entries|;
      var prefix := entries[..n - 1];
      var idx0 := FinanceRecordsIndices(prefix, timestamp);
      var rows0 := FinanceRecords(prefix, Some(timestamp)).value;
      assert forall i :: 0 <= i < n - 1 ==> prefix[i] == entries[i];
      if IsFinanceKey(entries[n - 1].0) {
        idx := idx0 + [n - 1];
        assert FinanceRecords(entries, Some(timestamp)).value
            == rows0 + [FinanceRecord(entries[n - 1].0, entries[n - 1].1, timestamp)];
      } else {
        idx := idx0;
        assert FinanceRecords(entries, Some(timestamp)).value == rows0;
      }
    }
  }

  /** Dictionary keys are distinct, so at most two records come out. */
  lemma AtMostTwoFinanceRecords(data: Financials)
    requires WellFormedFinancials(data)
    requires data.timestamp.Some?
    ensures FinanceRecords(data.entries, data.timestamp).Ok?
    ensures |FinanceRecords(data.entries, data.timestamp).value| <= 2
  {
    var idx := FinanceRecordsIndices(data.entries, data.timestamp.value);
    var keys := seq(|idx|, k requires 0 <= k < |idx| => data.entries[idx[k]].0);
    AtMostTwoKeys(keys);
  }

  lemma AtMostTwoKeys(keys: seq<string>)
    requires forall i :: 0 <= i < |keys| ==> IsFinanceKey(keys[i])
    requires forall i, j :: 0 <= i < j < |keys| ==> keys[i] != keys[j]
    ensures |keys| <= 2
  {
    if 2 < |keys| {
      FirstThree(keys);
      assert false;
    }
  }

  /** Names the first three keys, so that the two requirements of
      `AtMostTwoKeys` are instantiated at them before the clash. */
  lemma FirstThree(keys: seq<string>)
    ensures 2 < |keys| ==> keys[..3] == [keys[0], keys[1], keys[2]]
  {
  }

  /** The integration's summary with both entries yields a budget record and
      a savings record, in that order. */
  lemma FinancialsExample(ts: string)
    ensures var r := GetFinancials(Financials([("budget", 1000000.0), ("savings", 150000.0)], Some(ts)));
      && r.Ok?
      && r.value.insert.rows == [FinanceRecord("budget", 1000000.0, ts), FinanceRecord("savings", 150000.0, ts)]
      && |r.value.returned| == 2
  {
    var entries: seq<(string, real)> := [("budget", 1000000.0), ("savings", 150000.0)];
    var first := entries[..1];
    assert first == [("budget", 1000000.0)];
    assert first[..0] == [] && first[0] == ("budget", 1000000.0);
    assert FinanceRecords(first[..0], Some(ts)) == Ok([]);
    assert IsFinanceKey("budget") && IsFinanceKey("savings");
    assert entries[..|entries| - 1] == first && entries[|entries| - 1] == ("savings", 150000.0);
    assert |first| == 1 && first[..|first| - 1] == first[..0];
    var r1 := FinanceRecords(first, Some(ts));
    assert r1.Ok? && r1.value == [] + [FinanceRecord("budget", 1000000.0, ts)];
    var r2 := FinanceRecords(entries, Some(ts));
    assert r2.Ok? && r2.value == r1.value + [FinanceRecord("savings", 150000.0, ts)];
  }
}
