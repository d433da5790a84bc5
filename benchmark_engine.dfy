/** The benchmark engine: five metrics per (vendor, dataset) forecast file,
    the per-vendor results built from the configuration, and the summary
    that names the best vendor per dataset and overall.

    The file system is abstracted as a map from the paths that exist to the
    rows their CSV files yield. */
module Benchmark {
  import opened Series
  import opened Ranking
  import opened Dicts
  import MetricsCalculator

  /** The engine's metric record: exactly MAE, MAPE, WAPE, RMSE (as the mean
      squared error) and Bias. */
  datatype EngineMetrics = EngineMetrics(
    mae: Float,
    mape: Float,
    wape: Float,
    mse: Float,
    bias: Float)

  /** MAPE with zero actuals replaced by NaN, which the mean then skips; the
      unguarded MAPE computed first is overwritten and never used. So the
      engine's MAPE is never infinite. */
  function Mape(rows: seq<Row>): (r: Float)
    ensures !r.Inf?
  {
    Percent(Mean(PercentErrors(rows)))
  }

  /** The engine shares MAE, WAPE, RMSE and Bias with the calculator; its MAPE
      agrees with the calculator's whenever that one is not infinite, and is a
      number exactly when some actual is non-zero. */
  function CalculateMetrics(rows: seq<Row>): (m: EngineMetrics)
    ensures m.mae == MetricsCalculator.Mae(rows) && m.wape == MetricsCalculator.Wape(rows)
    ensures m.mse == MetricsCalculator.Mse(rows) && m.bias == MetricsCalculator.Bias(rows)
    ensures !MetricsCalculator.Mape(rows).Inf? ==> m.mape == MetricsCalculator.Mape(rows)
    ensures m.mape.Num? <==> SomeNonZeroActual(rows)
  {
    PercentErrorsNonEmpty(rows);
    EngineMetrics(
      MetricsCalculator.Mae(rows),
      Mape(rows),
      MetricsCalculator.Wape(rows),
      MetricsCalculator.Mse(rows),
      MetricsCalculator.Bias(rows))
  }

  /** A zero-actual row, wherever it stands, changes neither the sum nor the
      count of the MAPE mean. */
  lemma MapeIgnoresZeroActual(p: seq<Row>, f: real, q: seq<Row>)
    ensures Mape(p + [Row(0.0, f)] + q) == Mape(p + q)
  {
    assert [Row(0.0, f)][1..] == [];
    assert PercentErrors([Row(0.0, f)]) == [];
    assert PercentErrors(p) + [] == PercentErrors(p);
    PercentErrorsAppend(p + [Row(0.0, f)], q);
    PercentErrorsAppend(p, [Row(0.0, f)]);
    PercentErrorsAppend(p, q);
  }

  /** MAPE is a number exactly when some actual is non-zero, and NaN
      otherwise; a number is non-negative, and 0 for a perfect forecast. */
  lemma MapeBounds(rows: seq<Row>)
    ensures Mape(rows).Num? <==> SomeNonZeroActual(rows)
    ensures Mape(rows).NaN? <==> !SomeNonZeroActual(rows)
    ensures Mape(rows).Num? ==> 0.0 <= Mape(rows).value
    ensures Mape(rows).Num? && Identical(rows) ==> Mape(rows).value == 0.0
  {
    var e := PercentErrors(rows);
    PercentErrorsNonEmpty(rows);
    PercentErrorsTerms(rows);
    SumNonNegative(e);
    SumZeroIff(e);
  }

  /** actual [0, 10, 20] against forecast [5, 11, 19]: the engine averages the
      two non-zero-actual rows, the calculator's MAPE is infinite. */
  lemma ZeroGuardExample()
    ensures Mape([Row(0.0, 5.0), Row(10.0, 11.0), Row(20.0, 19.0)]) == Num(7.5)
    ensures MetricsCalculator.Mape([Row(0.0, 5.0), Row(10.0, 11.0), Row(20.0, 19.0)]).Inf?
  {
    var rows := [Row(0.0, 5.0), Row(10.0, 11.0), Row(20.0, 19.0)];
    assert rows == [Row(0.0, 5.0)] + [Row(10.0, 11.0), Row(20.0, 19.0)];
    MapeIgnoresZeroActual([], 5.0, [Row(10.0, 11.0), Row(20.0, 19.0)]);
    var rest := [Row(10.0, 11.0), Row(20.0, 19.0)];
    PercentErrorsWithoutZeros(rest);
    assert PercentErrors(rest) == [0.1, 0.05];
    SumOfTwo(0.1, 0.05);
    assert rows[0].actual == 0.0 && rows[0].forecast != 0.0;
  }

  // ---------------------------------------------------------------------
  // Configuration and per-vendor results

  /** One vendor of the configuration: its name and its dataset-key to
      forecast-file mapping. */
  datatype VendorConfig = VendorConfig(name: string, forecastFiles: Dict<string>)

  datatype Config = Config(vendors: seq<VendorConfig>, datasets: seq<string>)
  {
    ghost predicate Valid()
    {
      forall i :: 0 <= i < |vendors| ==> vendors[i].forecastFiles.Valid()
    }
  }

  /** The files that exist, each with the rows it yields. */
  type Files = map<string, seq<Row>>

  /** `{'metrics': ..., 'records': len(df)}` */
  datatype DatasetResult = DatasetResult(metrics: EngineMetrics, records: nat)

  /** A vendor's results: dataset key to result. */
  type VendorData = Dict<DatasetResult>

  function Load(rows: seq<Row>): DatasetResult
  {
    DatasetResult(CalculateMetrics(rows), |rows|)
  }

  /** The vendor's results after its inner loop has seen `items`. */
  function DatasetsOf(items: seq<(string, string)>, files: Files): (d: VendorData)
    ensures d.Valid()
  {
    if |items| == 0 then Empty()
    else
      var d := DatasetsOf(items[..|items| - 1], files);
      var key, path := items[|items| - 1].0, items[|items| - 1].1;
      if path in files then d.Put(key, Load(files[path])) else d
  }

  /** One more turn of a vendor's inner loop. */
  lemma DatasetsOfStep(items: seq<(string, string)>, j: nat, files: Files)
    requires j < |items|
    ensures DatasetsOf(items[..j + 1], files) ==
      if items[j].1 in files then DatasetsOf(items[..j], files).Put(items[j].0, Load(files[items[j].1]))
      else DatasetsOf(items[..j], files)
  {
    PrefixStep(items, j);
  }

  /** The inner loop of `run_benchmark` for one vendor: every dataset whose
      forecast file exists gets that file's metrics and row count. */
  method LoadDatasets(items: seq<(string, string)>, files: Files) returns (data: VendorData)
    ensures data == DatasetsOf(items, files)
  {
    data := Empty();
    var j := 0;
    while j < |items|
      invariant 0 <= j <= |items|
      invariant data == DatasetsOf(items[..j], files)
    {
      var key, path := items[j].0, items[j].1;
      DatasetsOfStep(items, j, files);
      if path in files {
        data := data.Put(key, Load(files[path]));
      }
      j := j + 1;
    }
    PrefixWhole(items);
  }

  /** The datasets with a result are the configured keys whose file exists. */
  lemma {:induction false} DatasetsOfKeys(items: seq<(string, string)>, files: Files)
    ensures forall i :: 0 <= i < |items| && items[i].1 in files ==> items[i].0 in DatasetsOf(items, files).entries
    ensures forall k :: k in DatasetsOf(items, files).entries ==>
      exists i :: 0 <= i < |items| && items[i].0 == k && items[i].1 in files
  {
    if |items| > 0 {
      var n := |items| - 1;
      var p := items[..n];
      DatasetsOfKeys(p, files);
      var d := DatasetsOf(items, files);
      forall i | 0 <= i < n && items[i].1 in files ensures items[i].0 in d.entries {
        assert p[i] == items[i];
      }
      forall k | k in d.entries ensures exists i :: 0 <= i < |items| && items[i].0 == k && items[i].1 in files {
        if k != items[n].0 || items[n].1 !in files {
          assert k in DatasetsOf(p, files).entries;
          var i :| 0 <= i < |p| && p[i].0 == k && p[i].1 in files;
          assert items[i] == p[i];
        }
      }
    }
  }

  /** With distinct keys, a dataset's result holds its own file's metrics. */
  lemma {:induction false} DatasetsOfEntries(items: seq<(string, string)>, files: Files)
    requires forall i, j :: 0 <= i < j < |items| ==> items[i].0 != items[j].0
    ensures forall i :: 0 <= i < |items| && items[i].1 in files ==>
      && items[i].0 in DatasetsOf(items, files).entries
      && DatasetsOf(items, files).entries[items[i].0] == Load(files[items[i].1])
  {
    if |items| > 0 {
      var n := |items| - 1;
      var p := items[..n];
      DatasetsOfEntries(p, files);
      forall i | 0 <= i < n && items[i].1 in files
        ensures items[i].0 in DatasetsOf(items, files).entries
        ensures DatasetsOf(items, files).entries[items[i].0] == Load(files[items[i].1])
      {
        assert p[i] == items[i];
        assert items[i].0 != items[n].0;
      }
    }
  }

  /** A vendor has a result for a dataset key exactly when the key's file
      exists, and the result holds that file's metrics and row count. */
  lemma VendorDatasets(forecastFiles: Dict<string>, files: Files)
    requires forecastFiles.Valid()
    ensures var d := DatasetsOf(forecastFiles.Items(), files);
      && (forall k :: k in d.entries <==> k in forecastFiles.entries && forecastFiles.entries[k] in files)
      && (forall k :: k in d.entries ==>
            d.entries[k] == Load(files[forecastFiles.entries[k]])
            && d.entries[k].records == |files[forecastFiles.entries[k]]|)
  {
    var items := forecastFiles.Items();
    ItemsKeys(forecastFiles);
    DatasetsOfKeys(items, files);
    DatasetsOfEntries(items, files);
  }

  /** The writes of the outer loop: each vendor's name with the results its
      inner loop builds. */
  function VendorPairs(vendors: seq<VendorConfig>, files: Files): (ps: seq<(string, VendorData)>)
    requires forall i :: 0 <= i < |vendors| ==> vendors[i].forecastFiles.Valid()
    ensures |ps| == |vendors|
    ensures forall i :: 0 <= i < |vendors| ==>
      ps[i] == (vendors[i].name, DatasetsOf(vendors[i].forecastFiles.Items(), files))
  {
    if |vendors| == 0 then []
    else
      var last := vendors[|vendors| - 1];
      VendorPairs(vendors[..|vendors| - 1], files) + [(last.name, DatasetsOf(last.forecastFiles.Items(), files))]
  }

  /** `results['vendors']` after the outer loop has seen `vendors`. */
  function VendorsOf(vendors: seq<VendorConfig>, files: Files): (d: Dict<VendorData>)
    requires forall i :: 0 <= i < |vendors| ==> vendors[i].forecastFiles.Valid()
    ensures d.Valid()
  {
    PutAll(VendorPairs(vendors, files))
  }

  /** One more turn of the outer loop. */
  lemma VendorsOfStep(vendors: seq<VendorConfig>, files: Files)
    requires forall i :: 0 <= i < |vendors| ==> vendors[i].forecastFiles.Valid()
    requires |vendors| > 0
    ensures var last := vendors[|vendors| - 1];
      VendorsOf(vendors, files)
        == VendorsOf(vendors[..|vendors| - 1], files).Put(last.name, DatasetsOf(last.forecastFiles.Items(), files))
  {
    var n := |vendors| - 1;
    assert VendorPairs(vendors, files)[..n] == VendorPairs(vendors[..n], files);
  }

  lemma VendorsOfNext(vendors: seq<VendorConfig>, i: nat, files: Files)
    requires forall i :: 0 <= i < |vendors| ==> vendors[i].forecastFiles.Valid()
    requires i < |vendors|
    ensures VendorsOf(vendors[..i + 1], files)
      == VendorsOf(vendors[..i], files).Put(vendors[i].name, DatasetsOf(vendors[i].forecastFiles.Items(), files))
  {
    PrefixStep(vendors, i);
    VendorsOfStep(vendors[..i + 1], files);
  }

  /** No later configuration entry carries the same vendor name. */
  predicate LastNamed(vendors: seq<VendorConfig>, i: nat)
  {
    forall j :: i < j < |vendors| ==> vendors[j].name != vendors[i].name
  }

  predicate DistinctNames(vendors: seq<VendorConfig>)
  {
    forall i, j :: 0 <= i < j < |vendors| ==> vendors[i].name != vendors[j].name
  }

  function Names(vendors: seq<VendorConfig>): seq<string>
  {
    seq(|vendors|, i requires 0 <= i < |vendors| => vendors[i].name)
  }

  lemma NamesWritten(vendors: seq<VendorConfig>, files: Files)
    requires forall i :: 0 <= i < |vendors| ==> vendors[i].forecastFiles.Valid()
    ensures WrittenKeys(VendorPairs(vendors, files)) == Names(vendors)
  {
  }

  /** Every configured vendor has an entry, possibly empty, and nothing
      else does. */
  lemma VendorsOfKeys(vendors: seq<VendorConfig>, files: Files)
    requires forall i :: 0 <= i < |vendors| ==> vendors[i].forecastFiles.Valid()
    ensures forall i :: 0 <= i < |vendors| ==> vendors[i].name in VendorsOf(vendors, files).entries
    ensures forall v :: v in VendorsOf(vendors, files).entries ==> v in Names(vendors)
  {
    var ps := VendorPairs(vendors, files);
    PutAllKeys(ps);
    NamesWritten(vendors, files);
    forall i | 0 <= i < |vendors| ensures vendors[i].name in VendorsOf(vendors, files).entries {
      assert ps[i].0 == vendors[i].name;
    }
  }

  /** A vendor's entry is built from its last configuration entry: a repeated
      name starts again from an empty dict. */
  lemma VendorsOfEntries(vendors: seq<VendorConfig>, files: Files)
    requires forall i :: 0 <= i < |vendors| ==> vendors[i].forecastFiles.Valid()
    ensures forall i :: 0 <= i < |vendors| && LastNamed(vendors, i) ==>
      && vendors[i].name in VendorsOf(vendors, files).entries
      && VendorsOf(vendors, files).entries[vendors[i].name] == DatasetsOf(vendors[i].forecastFiles.Items(), files)
  {
    var ps := VendorPairs(vendors, files);
    PutAllLast(ps);
    forall i | 0 <= i < |vendors| && LastNamed(vendors, i)
      ensures vendors[i].name in VendorsOf(vendors, files).entries
      ensures VendorsOf(vendors, files).entries[vendors[i].name] == DatasetsOf(vendors[i].forecastFiles.Items(), files)
    {
      assert LastWrite(ps, i);
    }
  }

  /** Every vendor's results are themselves a well-formed dict. */
  lemma VendorsOfValid(vendors: seq<VendorConfig>, files: Files)
    requires forall i :: 0 <= i < |vendors| ==> vendors[i].forecastFiles.Valid()
    ensures forall v :: v in VendorsOf(vendors, files).entries ==> VendorsOf(vendors, files).entries[v].Valid()
  {
    PutAllValues(VendorPairs(vendors, files));
  }

  /** With distinct vendor names, the results follow configuration order, the
      order in which the summary breaks ties. */
  lemma VendorsOfOrder(vendors: seq<VendorConfig>, files: Files)
    requires forall i :: 0 <= i < |vendors| ==> vendors[i].forecastFiles.Valid()
    requires DistinctNames(vendors)
    ensures VendorsOf(vendors, files).keys == Names(vendors)
  {
    var ps := VendorPairs(vendors, files);
    assert DistinctKeys(ps);
    PutAllOrder(ps);
    NamesWritten(vendors, files);
  }

  /** Whatever the repetitions, the results follow the configuration order
      of each name's first entry: a repeated name keeps its first place. */
  lemma VendorsOfFirstOrder(vendors: seq<VendorConfig>, files: Files)
    requires forall i :: 0 <= i < |vendors| ==> vendors[i].forecastFiles.Valid()
    ensures VendorsOf(vendors, files).keys == FirstOccurrences(Names(vendors))
  {
    PutAllFirstOrder(VendorPairs(vendors, files));
    NamesWritten(vendors, files);
  }

  // ---------------------------------------------------------------------
  // Summary

  /** A summary entry: a dataset's best vendor and MAPE (`bestMape` stays
      at the starting +infinity when no vendor has a numeric MAPE), or the
      overall best vendor and its average MAPE. */
  datatype SummaryEntry =
    | DatasetBest(bestVendor: Option<string>, bestMape: Float)
    | OverallBest(vendor: string, avgMape: Float)

  const OverallBestKey: string := "overall_best"

  /** A vendor's MAPE for a dataset. A vendor without a result for it is
      passed over by the loop just as one whose MAPE is NaN, so NaN stands
      for both. */
  function MapeFor(data: VendorData, dataset: string): Float
  {
    if dataset in data.entries then data.entries[dataset].metrics.mape else NaN
  }

  /** The candidates of the per-dataset loop, in results order. */
  function DatasetMapes(vendors: Dict<VendorData>, dataset: string): seq<Float>
    requires vendors.Valid()
  {
    seq(|vendors.keys|, i requires 0 <= i < |vendors.keys| => MapeFor(vendors.entries[vendors.keys[i]], dataset))
  }

  /** `{'best_vendor': ..., 'best_mape': ...}` for one dataset. */
  function BestFor(vendors: Dict<VendorData>, dataset: string): (r: SummaryEntry)
    requires vendors.Valid()
    ensures r.DatasetBest?
    ensures r.bestVendor.None? ==> r.bestMape == Inf
    ensures r.bestVendor.Some? ==> r.bestVendor.value in vendors.entries && r.bestMape.Num?
  {
    var mapes := DatasetMapes(vendors, dataset);
    match RunningMin(mapes)
    case None => DatasetBest(None, Inf)
    case Some(k) => DatasetBest(Some(vendors.keys[k]), mapes[k])
  }

  /** There is no best vendor for a dataset, and best_mape stays infinite,
      exactly when no vendor has a numeric MAPE for it. */
  lemma BestForNone(vendors: Dict<VendorData>, dataset: string)
    requires vendors.Valid()
    ensures BestFor(vendors, dataset).DatasetBest?
    ensures BestFor(vendors, dataset).bestVendor.None? <==>
      forall v :: v in vendors.entries ==> !MapeFor(vendors.entries[v], dataset).Num?
    ensures BestFor(vendors, dataset).bestVendor.None? ==> BestFor(vendors, dataset).bestMape == Inf
  {
    var mapes := DatasetMapes(vendors, dataset);
    forall v | v in vendors.entries
      ensures exists i :: 0 <= i < |vendors.keys| && vendors.keys[i] == v && mapes[i] == MapeFor(vendors.entries[v], dataset)
    {
      var i :| 0 <= i < |vendors.keys| && vendors.keys[i] == v;
    }
    if RunningMin(mapes).Some? {
      assert vendors.keys[RunningMin(mapes).value] in vendors.entries;
    }
  }

  /** The best vendor of a dataset has a numeric MAPE for it, which is
      best_mape, no larger than any other vendor's and strictly smaller than
      that of every vendor before it in results order. */
  lemma BestForIsFirstMinimum(vendors: Dict<VendorData>, dataset: string, best: string)
    requires vendors.Valid()
    requires BestFor(vendors, dataset).bestVendor == Some(best)
    ensures best in vendors.entries
    ensures BestFor(vendors, dataset).bestMape == MapeFor(vendors.entries[best], dataset)
    ensures BestFor(vendors, dataset).bestMape.Num?
    ensures forall v :: v in vendors.entries && MapeFor(vendors.entries[v], dataset).Num? ==>
      BestFor(vendors, dataset).bestMape.value <= MapeFor(vendors.entries[v], dataset).value
    ensures forall i, k ::
      0 <= i < k < |vendors.keys| && vendors.keys[k] == best && MapeFor(vendors.entries[vendors.keys[i]], dataset).Num? ==>
        BestFor(vendors, dataset).bestMape.value < MapeFor(vendors.entries[vendors.keys[i]], dataset).value
  {
    var mapes := DatasetMapes(vendors, dataset);
    var k := RunningMin(mapes).value;
    assert vendors.keys[k] == best;
    DistinctIndices(vendors.keys);
    forall i, k' | 0 <= i < k' < |vendors.keys| && vendors.keys[k'] == best
      && MapeFor(vendors.entries[vendors.keys[i]], dataset).Num?
      ensures mapes[k].value < MapeFor(vendors.entries[vendors.keys[i]], dataset).value
    {
      assert k' == k;
      assert mapes[i] == MapeFor(vendors.entries[vendors.keys[i]], dataset);
    }
    forall v | v in vendors.entries && MapeFor(vendors.entries[v], dataset).Num?
      ensures mapes[k].value <= MapeFor(vendors.entries[v], dataset).value
    {
      var i :| 0 <= i < |vendors.keys| && vendors.keys[i] == v;
      assert mapes[i] == MapeFor(vendors.entries[v], dataset);
    }
  }

  /** A vendor's MAPEs, one per dataset result, in insertion order. */
  function Mapes(data: VendorData): seq<Float>
  {
    seq(|data.keys|, j requires 0 <= j < |data.keys| => MapeFor(data, data.keys[j]))
  }

  /** The inner loop of the averaging step: one MAPE per result of a vendor,
      in the order of its results. */
  method CollectMapes(data: VendorData) returns (mapes: seq<Float>)
    requires data.Valid()
    ensures mapes == Mapes(data)
  {
    mapes := [];
    var j := 0;
    while j < |data.keys|
      invariant 0 <= j <= |data.keys|
      invariant |mapes| == j
      invariant forall t :: 0 <= t < j ==> mapes[t] == data.entries[data.keys[t]].metrics.mape
    {
      mapes := mapes + [data.entries[data.keys[j]].metrics.mape];
      j := j + 1;
    }
  }

  /** `np.mean` of a list of floats: NaN for an empty list or when a NaN is
      among them, otherwise +infinity when an infinity is, otherwise the mean
      of the numbers. */
  function NpMean(xs: seq<Float>): (r: Float)
    ensures r.NaN? <==> |xs| == 0 || exists i :: 0 <= i < |xs| && xs[i].NaN?
    ensures r.Inf? ==> exists i :: 0 <= i < |xs| && xs[i].Inf?
  {
    if exists i :: 0 <= i < |xs| && xs[i].NaN? then NaN
    else if exists i :: 0 <= i < |xs| && xs[i].Inf? then Inf
    else Mean(seq(|xs|, i requires 0 <= i < |xs| => xs[i].value))
  }

  /** Dataset MAPEs of 10 and 20 average to 15. */
  lemma AverageExample()
    ensures NpMean([Num(10.0), Num(20.0)]) == Num(15.0)
  {
    assert seq(2, i requires 0 <= i < 2 => [Num(10.0), Num(20.0)][i].value) == [10.0, 20.0];
    SumOfTwo(10.0, 20.0);
  }

  /** `vendor_avg_mape` after the loop has seen `names`, as its items. */
  function VendorAverages(names: seq<string>, entries: map<string, VendorData>): (r: seq<(string, Float)>)
    requires forall i :: 0 <= i < |names| ==> names[i] in entries
    ensures |r| <= |names|
  {
    if |names| == 0 then []
    else
      var rest := VendorAverages(names[..|names| - 1], entries);
      var name := names[|names| - 1];
      var data := entries[name];
      if |data.keys| > 0 then rest + [(name, NpMean(Mapes(data)))] else rest
  }

  /** Every average belongs to a vendor with at least one dataset result and
      is the mean over the MAPEs of all its results. */
  lemma {:induction false} VendorAveragesSound(names: seq<string>, entries: map<string, VendorData>)
    requires forall i :: 0 <= i < |names| ==> names[i] in entries
    ensures forall i :: 0 <= i < |VendorAverages(names, entries)| ==>
      && VendorAverages(names, entries)[i].0 in names
      && VendorAverages(names, entries)[i].0 in entries
      && |entries[VendorAverages(names, entries)[i].0].keys| > 0
      && VendorAverages(names, entries)[i].1 == NpMean(Mapes(entries[VendorAverages(names, entries)[i].0]))
  {
    if |names| > 0 {
      var m := |names| - 1;
      var p := names[..m];
      VendorAveragesSound(p, entries);
      var r := VendorAverages(names, entries);
      var rest := VendorAverages(p, entries);
      var name := names[m];
      if |entries[name].keys| > 0 {
        assert r == rest + [(name, NpMean(Mapes(entries[name])))];
      } else {
        assert r == rest;
      }
      forall i | 0 <= i < |r|
        ensures r[i].0 in names && r[i].0 in entries
        ensures |entries[r[i].0].keys| > 0 && r[i].1 == NpMean(Mapes(entries[r[i].0]))
      {
        if i < |rest| {
          assert r[i] == rest[i];
          assert rest[i].0 in p;
          assert forall n :: n in p ==> n in names;
        }
      }
    }
  }

  /** Of any two averages, the first belongs to a name that comes earlier. */
  predicate InNameOrder(avgs: seq<(string, Float)>, names: seq<string>)
  {
    forall i, j :: 0 <= i < j < |avgs| ==>
      exists p, q :: 0 <= p < q < |names| && names[p] == avgs[i].0 && names[q] == avgs[j].0
  }

  /** The averages follow the order of `names`. */
  lemma {:induction false} VendorAveragesOrder(names: seq<string>, entries: map<string, VendorData>)
    requires forall i :: 0 <= i < |names| ==> names[i] in entries
    ensures InNameOrder(VendorAverages(names, entries), names)
  {
    if |names| > 0 {
      var m := |names| - 1;
      var pre := names[..m];
      VendorAveragesOrder(pre, entries);
      VendorAveragesSound(pre, entries);
      var r := VendorAverages(names, entries);
      var rest := VendorAverages(pre, entries);
      var name := names[m];
      if |entries[name].keys| > 0 {
        assert r == rest + [(name, NpMean(Mapes(entries[name])))];
      } else {
        assert r == rest;
      }
      forall i, j | 0 <= i < j < |r|
        ensures exists p, q :: 0 <= p < q < |names| && names[p] == r[i].0 && names[q] == r[j].0
      {
        assert r[i] == rest[i];
        if j < |rest| {
          assert r[j] == rest[j];
          var p, q :| 0 <= p < q < |pre| && pre[p] == rest[i].0 && pre[q] == rest[j].0;
          assert names[p] == pre[p] && names[q] == pre[q];
        } else {
          assert rest[i].0 in pre;
          var p :| 0 <= p < |pre| && pre[p] == rest[i].0;
          assert names[p] == pre[p] && names[m] == r[j].0;
        }
      }
      assert InNameOrder(r, names);
    }
  }

  /** With distinct names, such as the keys of `results['vendors']`, no
      vendor is averaged twice. */
  lemma VendorAveragesDistinct(names: seq<string>, entries: map<string, VendorData>)
    requires forall i :: 0 <= i < |names| ==> names[i] in entries
    requires forall i, j :: 0 <= i < j < |names| ==> names[i] != names[j]
    ensures forall i, j :: 0 <= i < j < |VendorAverages(names, entries)| ==>
      VendorAverages(names, entries)[i].0 != VendorAverages(names, entries)[j].0
  {
    VendorAveragesOrder(names, entries);
    var r := VendorAverages(names, entries);
    forall i, j | 0 <= i < j < |r| ensures r[i].0 != r[j].0 {
      var p, q :| 0 <= p < q < |names| && names[p] == r[i].0 && names[q] == r[j].0;
    }
  }

  predicate Averaged(avgs: seq<(string, Float)>, name: string)
  {
    exists j :: 0 <= j < |avgs| && avgs[j].0 == name
  }

  /** Every vendor with at least one dataset result is averaged. */
  lemma {:induction false} VendorAveragesComplete(names: seq<string>, entries: map<string, VendorData>)
    requires forall i :: 0 <= i < |names| ==> names[i] in entries
    ensures forall i :: 0 <= i < |names| && |entries[names[i]].keys| > 0 ==>
      Averaged(VendorAverages(names, entries), names[i])
  {
    if |names| > 0 {
      var m := |names| - 1;
      var p := names[..m];
      VendorAveragesComplete(p, entries);
      var r := VendorAverages(names, entries);
      var rest := VendorAverages(p, entries);
      var name := names[m];
      if |entries[name].keys| > 0 {
        assert r == rest + [(name, NpMean(Mapes(entries[name])))];
      } else {
        assert r == rest;
      }
      forall i | 0 <= i < |names| && |entries[names[i]].keys| > 0
        ensures Averaged(r, names[i])
      {
        if i == m {
          assert r[|r| - 1].0 == names[i];
        } else {
          assert p[i] == names[i];
          assert Averaged(rest, p[i]);
          var j :| 0 <= j < |rest| && rest[j].0 == names[i];
          assert r[j] == rest[j];
        }
      }
    }
  }

  function AverageKeys(avgs: seq<(string, Float)>): seq<Float>
  {
    seq(|avgs|, i requires 0 <= i < |avgs| => avgs[i].1)
  }

  /** `overall_best` is present exactly when some vendor was averaged; when
      the first average is not NaN, its vendor has the smallest average that
      is not NaN, the first of equal ones winning; a NaN average in first
      place is never displaced. */
  function OverallFor(avgs: seq<(string, Float)>): (r: Option<SummaryEntry>)
    ensures r.None? <==> |avgs| == 0
    ensures r.Some? ==> r.value.OverallBest?
    ensures r.Some? ==> exists k: nat :: IsMinChoice(AverageKeys(avgs), k) && avgs[k] == (r.value.vendor, r.value.avgMape)
  {
    if |avgs| == 0 then None
    else
      var k := MinIndex(AverageKeys(avgs));
      Some(OverallBest(avgs[k].0, avgs[k].1))
  }

  /** The summary after the per-dataset loop has seen `datasets`. */
  function DatasetSummaries(acc: Dict<SummaryEntry>, datasets: seq<string>, vendors: Dict<VendorData>): (s: Dict<SummaryEntry>)
    requires acc.Valid() && vendors.Valid()
    ensures s.Valid()
  {
    if |datasets| == 0 then acc
    else
      var d := datasets[|datasets| - 1];
      DatasetSummaries(acc, datasets[..|datasets| - 1], vendors).Put(d, BestFor(vendors, d))
  }

  /** The summary `_calculate_summary` leaves, starting from `acc`. */
  function SummaryOf(acc: Dict<SummaryEntry>, datasets: seq<string>, vendors: Dict<VendorData>): (s: Dict<SummaryEntry>)
    requires acc.Valid() && vendors.Valid()
    requires forall v :: v in vendors.entries ==> vendors.entries[v].Valid()
    ensures s.Valid()
  {
    var s := DatasetSummaries(acc, datasets, vendors);
    match OverallFor(VendorAverages(vendors.keys, vendors.entries))
    case None => s
    case Some(best) => s.Put(OverallBestKey, best)
  }

  lemma {:induction false} DatasetSummariesSpec(acc: Dict<SummaryEntry>, datasets: seq<string>, vendors: Dict<VendorData>)
    requires acc.Valid() && vendors.Valid()
    ensures var s := DatasetSummaries(acc, datasets, vendors);
      && (forall d :: d in datasets ==> d in s.entries && s.entries[d] == BestFor(vendors, d))
      && (forall k :: k in s.entries ==> k in datasets || k in acc.entries)
      && (forall k :: k in acc.entries && k !in datasets ==> k in s.entries && s.entries[k] == acc.entries[k])
  {
    if |datasets| > 0 {
      var n := |datasets| - 1;
      var p, d := datasets[..n], datasets[n];
      DatasetSummariesSpec(acc, p, vendors);
      assert datasets == p + [d];
      var before := DatasetSummaries(acc, p, vendors);
      PutEntries(before, d, BestFor(vendors, d));
    }
  }

  /** Every configured dataset gets a summary entry holding its best vendor
      (unless it is itself named "overall_best"); the only other key is
      "overall_best", present exactly when some vendor has a dataset result. */
  lemma SummarySpec(datasets: seq<string>, vendors: Dict<VendorData>)
    requires vendors.Valid()
    requires forall v :: v in vendors.entries ==> vendors.entries[v].Valid()
    ensures var s := SummaryOf(Empty(), datasets, vendors);
      && (forall d :: d in datasets ==> d in s.entries)
      && (forall d :: d in datasets && d != OverallBestKey ==> s.entries[d] == BestFor(vendors, d))
      && (forall k :: k in s.entries ==> k in datasets || k == OverallBestKey)
      && (OverallBestKey !in datasets ==>
            (OverallBestKey in s.entries <==>
               exists v :: v in vendors.entries && |vendors.entries[v].keys| > 0))
  {
    var acc: Dict<SummaryEntry> := Empty();
    DatasetSummariesSpec(acc, datasets, vendors);
    var avgs := VendorAverages(vendors.keys, vendors.entries);
    VendorAveragesSound(vendors.keys, vendors.entries);
    VendorAveragesComplete(vendors.keys, vendors.entries);
    if exists v :: v in vendors.entries && |vendors.entries[v].keys| > 0 {
      var v :| v in vendors.entries && |vendors.entries[v].keys| > 0;
      var i :| 0 <= i < |vendors.keys| && vendors.keys[i] == v;
    }
  }

  // ---------------------------------------------------------------------
  // The engine

  class BenchmarkEngine {
    const config: Config
    /** `results['vendors']` */
    var vendors: Dict<VendorData>
    /** `results['summary']` */
    var summary: Dict<SummaryEntry>

    ghost predicate Valid()
      reads this
    {
      && config.Valid()
      && vendors.Valid()
      && summary.Valid()
      && forall v :: v in vendors.entries ==> vendors.entries[v].Valid()
    }

    constructor (config: Config)
      requires config.Valid()
      ensures Valid() && this.config == config
      ensures vendors == Empty() && summary == Empty()
    {
      this.config := config;
      vendors := Empty();
      summary := Empty();
    }

    /** Builds `results['vendors']` from the configuration and the files
        that exist, then the summary from scratch. */
    method RunBenchmark(files: Files)
      requires Valid()
      modifies this
      ensures Valid()
      ensures vendors == VendorsOf(config.vendors, files)
      ensures summary == SummaryOf(Empty(), config.datasets, vendors)
    {
      summary := Empty();
      LoadVendors(files);
      VendorsOfValid(config.vendors, files);
      CalculateSummary();
    }

    /** The outer loop of `run_benchmark`, from an empty `results['vendors']`. */
    method LoadVendors(files: Files)
      requires config.Valid()
      modifies this`vendors
      ensures vendors == VendorsOf(config.vendors, files)
    {
      vendors := Empty();
      var i := 0;
      while i < |config.vendors|
        invariant 0 <= i <= |config.vendors|
        invariant vendors == VendorsOf(config.vendors[..i], files)
      {
        VendorsOfNext(config.vendors, i, files);
        LoadVendor(config.vendors[i], files);
        i := i + 1;
      }
      PrefixWhole(config.vendors);
    }

    /** One turn of the outer loop of `run_benchmark`: the vendor gets a
        fresh dict, filled with a result for every dataset whose file
        exists. */
    method LoadVendor(vendor: VendorConfig, files: Files)
      requires vendor.forecastFiles.Valid() && vendors.Valid()
      modifies this`vendors
      ensures vendors == old(vendors).Put(vendor.name, DatasetsOf(vendor.forecastFiles.Items(), files))
    {
      var data := LoadDatasets(vendor.forecastFiles.Items(), files);
      vendors := vendors.Put(vendor.name, data);
    }

    /** `_calculate_summary`: a best-vendor entry per configured dataset, then
        `overall_best` when some vendor was averaged. */
    method CalculateSummary()
      requires Valid()
      modifies this`summary
      ensures Valid()
      ensures summary == SummaryOf(old(summary), config.datasets, vendors)
    {
      var k := 0;
      while k < |config.datasets|
        invariant 0 <= k <= |config.datasets|
        invariant Valid()
        invariant summary == DatasetSummaries(old(summary), config.datasets[..k], vendors)
      {
        var dataset := config.datasets[k];
        PrefixStep(config.datasets, k);
        var bestVendor, bestMape := BestForDataset(dataset);
        summary := summary.Put(dataset, DatasetBest(bestVendor, bestMape));
        k := k + 1;
      }
      PrefixWhole(config.datasets);
      var averages := AverageMapes();
      if |averages| > 0 {
        var w := MinIndex(AverageKeys(averages));
        summary := summary.Put(OverallBestKey, OverallBest(averages[w].0, averages[w].1));
      }
    }

    /** The per-dataset loop: the running minimum of the vendors' MAPEs for
        `dataset`, starting from +infinity and replaced only by a MAPE that
        compares strictly smaller. */
    method BestForDataset(dataset: string) returns (bestVendor: Option<string>, bestMape: Float)
      requires vendors.Valid()
      ensures DatasetBest(bestVendor, bestMape) == BestFor(vendors, dataset)
    {
      ghost var mapes := DatasetMapes(vendors, dataset);
      ghost var r: Option<nat> := None;
      bestVendor, bestMape := None, Inf;
      var i := 0;
      while i < |vendors.keys|
        invariant 0 <= i <= |vendors.keys|
        invariant r == RunningMin(mapes[..i])
        invariant r.None? ==> bestVendor.None? && bestMape == Inf
        invariant r.Some? ==> r.value < i && bestVendor == Some(vendors.keys[r.value]) && bestMape == mapes[r.value]
      {
        var name := vendors.keys[i];
        var data := vendors.entries[name];
        RunningMinStep(mapes, i);
        assert mapes[i] == MapeFor(data, dataset);
        if dataset in data.entries {
          var mape := data.entries[dataset].metrics.mape;
          if Lt(mape, bestMape) {
            bestVendor, bestMape := Some(name), mape;
            r := Some(i);
          }
        }
        i := i + 1;
      }
      PrefixWhole(mapes);
    }

    /** The averaging loop: for each vendor in results order, the list of its
        datasets' MAPEs and, when that list is not empty, its mean. */
    method AverageMapes() returns (averages: seq<(string, Float)>)
      requires Valid()
      ensures averages == VendorAverages(vendors.keys, vendors.entries)
    {
      averages := [];
      var i := 0;
      while i < |vendors.keys|
        invariant 0 <= i <= |vendors.keys|
        invariant averages == VendorAverages(vendors.keys[..i], vendors.entries)
      {
        var name := vendors.keys[i];
        var data := vendors.entries[name];
        PrefixStep(vendors.keys, i);
        var mapes := CollectMapes(data);
        if |mapes| > 0 {
          averages := averages + [(name, NpMean(mapes))];
        }
        i := i + 1;
      }
      PrefixWhole(vendors.keys);
    }
  }
}
