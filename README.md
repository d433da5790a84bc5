# Forecasting benchmark engine: a Dafny model

This project models the forecast-accuracy core of a vendor benchmarking tool in Dafny.

Every vendor hands in forecast files. A file is a list of rows, each holding an actual value and a forecast value. The tool scores each file with point-accuracy metrics, then ranks the vendors. The code has two variants:

- **The stand-alone metrics calculator** (`metrics_calculator.py`). It computes seven metrics for one file: MAE, MAPE, WAPE, RMSE, Bias, SMAPE and the tracking signal. It also names the best performer by MAPE, WAPE or RMSE.
- **The benchmark engine** (`benchmark_engine.py`). It works in two steps:
  - It computes five metrics for every (vendor, dataset) file that exists, and collects them in an insertion-ordered results dict.
  - It summarises those results. For each configured dataset it names the best vendor by a running minimum. It averages each vendor's MAPE and names an overall best vendor with Python's `min`.

## Modules

- `Series` (`series.dfy`): rows, sums and means, the per-row error terms, and facts about sums.
- `Ranking` (`ranking.dfy`): the two selection rules.
  - `MinIndex` is Python's `min(..., key=...)`.
  - `RunningMin` is the engine's loop from `float('inf')` with a strict `<`.
  - Both keep the first of equal candidates.
- `Dicts` (`dicts.dfy`): Python's insertion-ordered dict with string keys. It is a key sequence plus a map, together with the facts about a run of assignments.
- `MetricsCalculator` (`metrics_calculator.dfy`): the calculator's metrics, their bounds, the worked example and the best performer.
- `Benchmark` (`benchmark_engine.dfy`):
  - the engine's metrics;
  - the results built by `run_benchmark`, as specification functions with their lemmas;
  - the summary, as specification functions with their lemmas;
  - the class `BenchmarkEngine`. Its methods run the source's loops and are proved equal to those specification functions.

## Representing the numbers

Values are exact `real`s. A metric is a `Float`: a number `Num(v)`, `Inf` for +infinity, or `NaN`. No computation in the core yields -infinity. Python's `x < y` is `Ranking.Lt`: it is false whenever either side is NaN, and +infinity is above every number.

Pandas means skip NaN, and the model follows that. The cases below are where the code's behaviour is easy to miss:

- **The calculator's MAPE has no zero guard.**
  - A row with actual 0 and forecast 0 is 0/0. That is NaN, and the mean skips it.
  - A row with actual 0 and any other forecast is infinite, so the whole MAPE is +infinity (`MetricsCalculator.MapeUndefined`).
  - Only the engine excludes zero actuals (`Benchmark.Mape`).
- **Metrics can be non-finite.** These cases give a non-finite value:
  - WAPE when the actuals sum to zero: +infinity, or NaN when every forecast is also exact (`MetricsCalculator.WapeUndefined`);
  - the calculator's MAPE when a zero actual meets a non-zero forecast (+infinity), or when every actual is zero (NaN);
  - the engine's MAPE when every actual is zero (NaN);
  - SMAPE when every row is zero on both sides (NaN);
  - every metric of a file with no rows (NaN).
- **No ranking by |Bias|.** Neither core file ranks by Bias.
- **Where infinity and NaN meet the rankings.** `min` ranks an infinite key above every number (`MetricsCalculator.InfiniteWapeRanksLast`). A NaN key is passed over, unless it sits in first place, where nothing displaces it. The engine's per-dataset loop starts `best_mape` at `Inf`.

## Model

| member | source | states |
|---|---|---|
| Ranking.MinIndex | metrics_calculator.py:130-132 | `min` over items returns a valid index. When the first key is not NaN, it is the first index holding the smallest key that is not NaN, and +infinity counts as larger than every number. When the first key is NaN, the result is index 0. |
| Ranking.RunningMin | benchmark_engine.py:87-95 | The loop from +inf ends on no candidate exactly when no key is a number. Otherwise it ends on a number, at the first index holding the smallest key that is not NaN. |
| Ranking.SameChoice | benchmark_engine.py:87-113 | When the first key is not NaN and some key is a number, `min` (line 113) and the running-minimum loop (lines 87-95) pick the same item. |
| MetricsCalculator.Mae | metrics_calculator.py:26 | MAE is a number exactly when there are rows, and NaN otherwise. It is never infinite. |
| MetricsCalculator.Mape | metrics_calculator.py:29 | MAPE is +infinity exactly when some row has a zero actual and a non-zero forecast. |
| MetricsCalculator.Wape | metrics_calculator.py:32 | WAPE is a number exactly when the actuals do not sum to 0. |
| MetricsCalculator.Mse | metrics_calculator.py:35 | The mean squared error is a number exactly when there are rows, and NaN otherwise. It is never infinite. |
| MetricsCalculator.Bias | metrics_calculator.py:38 | Bias is a number exactly when there are rows, and NaN otherwise. It is never infinite. |
| MetricsCalculator.Smape | metrics_calculator.py:42 | SMAPE is never infinite. |
| MetricsCalculator.TrackingSignal | metrics_calculator.py:44-46 | The tracking signal is a number exactly when there are rows, and NaN otherwise. It is never infinite. |
| MetricsCalculator.CalculateMetrics | metrics_calculator.py:20-56 | The record holds the seven metrics. MAE, RMSE, Bias and the tracking signal are numbers exactly when there are rows. Only MAPE and WAPE can be infinite. MAPE is infinite exactly when a zero actual meets a non-zero forecast. WAPE is a number exactly when the actuals do not sum to 0. With no rows, every metric is NaN. |
| MetricsCalculator.MaeBounds | metrics_calculator.py:26 | MAE is defined and non-negative, and it is 0 exactly when every forecast equals its actual. |
| MetricsCalculator.AbsBiasAtMostMae | metrics_calculator.py:25-38 | abs(Bias) <= MAE. |
| MetricsCalculator.BiasSign | metrics_calculator.py:38 | A negative Bias implies some under-forecast row; a positive Bias implies some over-forecast row. |
| MetricsCalculator.WapeBounds | metrics_calculator.py:32 | WAPE is a number when the actuals do not sum to 0, and it is 0 for a perfect forecast. For a positive total it is non-negative, and 0 only for a perfect forecast. |
| MetricsCalculator.WapeUndefined | metrics_calculator.py:32 | When the actuals sum to 0, WAPE is +infinity, or NaN exactly when every forecast is exact too. Otherwise it is a number. |
| MetricsCalculator.MapeWithoutZeroActuals | metrics_calculator.py:29 | With no zero actual, MAPE is 100 times the mean of abs((a - f) / a) over all rows. It is non-negative, and 0 exactly for a perfect forecast. |
| MetricsCalculator.MapeUndefined | metrics_calculator.py:29 | MAPE is +infinity exactly when a zero actual meets a non-zero forecast. It is NaN exactly when there is no such row and every actual is zero. Otherwise it is a non-negative number. |
| MetricsCalculator.SmapeTermBound | metrics_calculator.py:42 | Each term 2abs(f - a) / (abs(a) + abs(f)) lies in [0, 2]. |
| MetricsCalculator.SmapeTermsBounds | metrics_calculator.py:42 | Every SMAPE term that the mean keeps lies in [0, 2]. |
| MetricsCalculator.SmapeTermsEmpty | metrics_calculator.py:42 | No SMAPE term is left exactly when every row is zero on both sides. |
| MetricsCalculator.SmapeTermsIdentical | metrics_calculator.py:42 | A perfect forecast has only zero SMAPE terms. |
| MetricsCalculator.SmapeBounds | metrics_calculator.py:42 | SMAPE is NaN exactly when every row is 0 on both sides. Otherwise it is a number in [0, 200]. |
| MetricsCalculator.IdentityErrors | metrics_calculator.py:26-38 | For a perfect forecast, the sums of absolute, signed and squared errors are all 0. |
| MetricsCalculator.IdentityPercentages | metrics_calculator.py:29-42 | A perfect forecast with some non-zero actual has MAPE 0 and SMAPE 0. |
| MetricsCalculator.Identity | metrics_calculator.py:25-46 | A perfect forecast gives MAE, Bias, RMSE and tracking signal 0. WAPE is 0 when the actuals' total is non-zero. MAPE and SMAPE are 0 when some actual is non-zero. |
| MetricsCalculator.TrackingSignalBounds | metrics_calculator.py:44-46 | With rows, the tracking signal, Bias and MAE are numbers. The signal is 0 when MAE is 0, and otherwise n * Bias / MAE. Its size is at most the row count n. |
| MetricsCalculator.ExampleMeans | metrics_calculator.py:25-38 | For actual [10, 20, 30, 40] and forecast [12, 18, 33, 38]: MAE 2.25, Bias 0.25, mean squared error 5.25, WAPE 9. |
| MetricsCalculator.ExampleMape | metrics_calculator.py:29 | The same rows give MAPE 11.25. |
| MetricsCalculator.ExampleSmape | metrics_calculator.py:42 | The same rows give SMAPE between 10.83 and 10.85. |
| MetricsCalculator.WorkedExample | metrics_calculator.py:20-56 | The whole metric record of the worked example, with tracking signal 1 / 2.25. |
| MetricsCalculator.BestPerformer | metrics_calculator.py:130-132 | With no vendors there is no best performer. Otherwise it is the vendor at a position `min` may return. When the first vendor's score is not NaN, that is the first vendor with the smallest score that is not NaN, and +infinity ranks above every number. A NaN score in first place is never displaced. The same rule gives `best_performer_mape` at line 84. |
| MetricsCalculator.InfiniteWapeRanksLast | metrics_calculator.py:32 | A vendor A with actuals [1, -1] against forecasts [2, -1] has WAPE +infinity. It loses the WAPE ranking to a vendor B with WAPE 10. |
| Benchmark.CalculateMetrics | benchmark_engine.py:17-38 | The record holds exactly MAE, MAPE, WAPE, RMSE and Bias. Four of them equal the calculator's. MAPE equals the calculator's whenever that is not infinite. MAPE is a number exactly when some actual is non-zero. |
| Benchmark.Mape | benchmark_engine.py:30 | With zero actuals replaced by NaN, the engine's MAPE is never infinite. |
| Benchmark.MapeIgnoresZeroActual | benchmark_engine.py:30 | Inserting a zero-actual row anywhere leaves MAPE unchanged: it enters neither the sum nor the count. |
| Benchmark.MapeBounds | benchmark_engine.py:30 | MAPE is a number exactly when some actual is non-zero, and NaN otherwise. A number is non-negative, and 0 for a perfect forecast. |
| Benchmark.ZeroGuardExample | benchmark_engine.py:24-30 | For actual [0, 10, 20] and forecast [5, 11, 19], the engine's MAPE is 7.5, taken over the two non-zero rows. The unguarded calculator's MAPE is infinite. |
| Benchmark.DatasetsOf | benchmark_engine.py:59-67 | The results of one vendor after its inner loop form a well-formed dict. Its keys and values are stated by the next lemmas. |
| Benchmark.LoadDatasets | benchmark_engine.py:59-67 | The inner loop of `run_benchmark` builds exactly the specified per-vendor results. |
| Benchmark.DatasetsOfKeys | benchmark_engine.py:59-67 | A dataset gets a result when its file exists. Every result belongs to a configured key whose file exists. |
| Benchmark.DatasetsOfEntries | benchmark_engine.py:60-67 | With distinct keys, a dataset's result is its own file's metrics and row count. |
| Benchmark.VendorDatasets | benchmark_engine.py:59-67 | A vendor has a result for key k exactly when k is configured and its file exists. The result holds that file's metrics, and `records` is its row count. |
| Benchmark.VendorsOf | benchmark_engine.py:52-67 | `results['vendors']` after the outer loop is a well-formed dict. Its keys and values are stated by the next lemmas. |
| Benchmark.VendorsOfKeys | benchmark_engine.py:52-56 | Every configured vendor has an entry, possibly empty, and no other name has one. |
| Benchmark.VendorsOfEntries | benchmark_engine.py:52-67 | A vendor's entry is built from its last configuration entry: a repeated name starts again from `{}`. |
| Benchmark.VendorsOfValid | benchmark_engine.py:56-67 | Every vendor's results form a well-formed dict. |
| Benchmark.VendorsOfOrder | benchmark_engine.py:52-56 | With distinct names, the results follow configuration order, which is the order the summary breaks ties in. |
| Benchmark.VendorsOfFirstOrder | benchmark_engine.py:52-56 | With any repetitions, the results follow the configuration order of each name's first entry: a repeated name keeps its first place. |
| Benchmark.BestFor | benchmark_engine.py:86-100 | A dataset's entry names a best vendor or none. With none, best_mape is +inf. A named vendor has results, and best_mape is a number. |
| Benchmark.BestForNone | benchmark_engine.py:86-100 | A dataset has no best vendor, and best_mape stays +inf, exactly when no vendor has a numeric MAPE for it. |
| Benchmark.BestForIsFirstMinimum | benchmark_engine.py:86-100 | The best vendor exists, and best_mape is its MAPE, a number. That MAPE is at most every vendor's numeric MAPE for the dataset, and strictly below that of every earlier vendor. |
| Benchmark.CollectMapes | benchmark_engine.py:105-108 | The inner averaging loop collects one MAPE per dataset result of the vendor, in insertion order. |
| Benchmark.NpMean | benchmark_engine.py:110 | `np.mean` of a vendor's MAPEs is NaN exactly when the list is empty or holds a NaN. It is +infinity only when the list holds an infinity. |
| Benchmark.AverageExample | benchmark_engine.py:110 | Dataset MAPEs of 10 and 20 average to 15. |
| Benchmark.VendorAverages | benchmark_engine.py:103-110 | `vendor_avg_mape` has no more entries than there are vendors. Its entries are stated by the next lemmas. |
| Benchmark.VendorAveragesSound | benchmark_engine.py:103-110 | Every averaged vendor has at least one dataset result. Its average is the mean over all its results' MAPEs. |
| Benchmark.VendorAveragesComplete | benchmark_engine.py:103-110 | Every vendor with a dataset result is averaged. |
| Benchmark.VendorAveragesOrder | benchmark_engine.py:103-110 | The averages follow results order: of any two, the first belongs to a vendor that comes earlier. |
| Benchmark.VendorAveragesDistinct | benchmark_engine.py:103-110 | With distinct vendor names, as the keys of `results['vendors']` are, no vendor is averaged twice. |
| Benchmark.OverallFor | benchmark_engine.py:112-117 | `overall_best` exists exactly when some vendor was averaged. Its vendor and average are the item at a position `min` may return. When the first average is not NaN, that is the first item with the smallest average that is not NaN. A NaN average in first place is never displaced. |
| Benchmark.DatasetSummariesSpec | benchmark_engine.py:86-100 | Every configured dataset gets the entry of its best vendor. Other keys are left as they were. |
| Benchmark.SummaryOf | benchmark_engine.py:83-117 | The summary `_calculate_summary` leaves is a well-formed dict. Its keys and entries are stated by `SummarySpec`. |
| Benchmark.SummarySpec | benchmark_engine.py:83-117 | The summary has an entry for each configured dataset, holding its best vendor, plus an `overall_best` key. `overall_best` is present exactly when some vendor has a dataset result. |
| Benchmark.BenchmarkEngine.constructor | benchmark_engine.py:12-15 | An engine starts with its configuration and empty results. |
| Benchmark.BenchmarkEngine.RunBenchmark | benchmark_engine.py:40-74 | Afterwards, results['vendors'] is the specified per-vendor results and results['summary'] is the specified summary of them. |
| Benchmark.BenchmarkEngine.LoadVendors | benchmark_engine.py:52-67 | The outer loop builds `results['vendors']` from `{}`: it ends holding exactly the specified per-vendor results. |
| Benchmark.BenchmarkEngine.LoadVendor | benchmark_engine.py:53-67 | One turn of the outer loop: the vendor's name is bound to a fresh dict of its loaded datasets. |
| Benchmark.BenchmarkEngine.CalculateSummary | benchmark_engine.py:83-117 | The summary becomes the specified one: a best-vendor entry per dataset, then `overall_best`. |
| Benchmark.BenchmarkEngine.BestForDataset | benchmark_engine.py:87-95 | The per-dataset running-minimum loop computes the specified best vendor and best MAPE. |
| Benchmark.BenchmarkEngine.AverageMapes | benchmark_engine.py:103-110 | The averaging loop computes the specified averages, in results order. |
| Dicts.Dict.Put | benchmark_engine.py:64 | `d[k] = v` keeps the dict well formed and binds k to v. Every other key keeps its presence and its value. A new key goes last in the iteration order; an existing key keeps its place. |
| Dicts.PutPut | benchmark_engine.py:56 | Writing a key twice leaves what the second write leaves. |
| Dicts.ItemsKeys | benchmark_engine.py:59 | `items()` lists every key exactly once, each key with its own value. |
| Dicts.PutAllKeys | benchmark_engine.py:52-56 | After a run of assignments, every written key is present and no other key is. |
| Dicts.PutAllLast | benchmark_engine.py:52-56 | A key holds the value of its last write. |
| Dicts.PutAllOrder | benchmark_engine.py:52-56 | With distinct keys, iteration order equals write order. |
| Dicts.FirstOccurrencesSpec | benchmark_engine.py:52-56 | The first occurrences of a key sequence hold each of its keys exactly once, and nothing else. |
| Dicts.PutAllFirstOrder | benchmark_engine.py:52-56 | With any repetitions, iteration order is the order of each key's first write. |
| Dicts.PutAllValues | benchmark_engine.py:52-56 | Every value present was written under its key. |

## Left out

- Rounding (`round(x, 2)`) on the stored metrics and the overall average is not modelled. It would need binary floating point and banker's rounding. The rankings compare the rounded values, so values that round alike tie in the source but not in the model. For example, MAPEs 10.004 then 10.001 both become 10.0 and the first vendor wins, while the model picks the second.
- RMSE is represented by the mean squared error, because Dafny has no real square root. The square root is strictly increasing, so on unrounded values every RMSE ranking and tie is unchanged. After rounding they can differ: MSE 4.0 and 4.01 give RMSE 2.0 and about 2.0025, both stored as 2.0.
- A vendor without a result for a dataset gets the MAPE NaN in the per-dataset loop (`Benchmark.MapeFor`). The source skips it, as it skips a NaN MAPE, since `NaN < x` is false; so nothing is lost.
- Floating-point overflow and rounding error are not modelled; values are exact reals. A sum of finite floats that overflows to infinity is therefore not captured.
- I/O is not modelled:
  - reading the configuration JSON (the configuration is a constructor parameter);
  - `pd.read_csv` (the file system is a map from existing paths to their rows);
  - writing `benchmark_results.json`;
  - `os.makedirs`;
  - `print` output.
- The timestamp in the results needs a clock and is not modelled.
- The constructor starts `results['vendors']` and `results['summary']` as empty dicts. The source's `__init__` sets `self.results = {}` with neither key (benchmark_engine.py:15), so calling `_calculate_summary` before `run_benchmark` raises `KeyError` at line 90, or at line 104 when no dataset is configured. The model does not capture that error.
- `pd.read_csv` failing on an existing file is not modelled. For example, a file without a `Date` column raises at line 61 and aborts the whole run. The file map assumes every existing path yields rows.
- The test `'metrics' in vendor_data[dataset]` always holds for a stored result, so the model drops it.
- These calculator functions are file and console plumbing and are not modelled: `load_vendor_config`, `load_forecast_data`, `save_metrics`' JSON write, `print_metrics_summary`'s table, and `main`.
- `main` of the benchmark engine is not modelled.
- The dashboard, visualisation, data-generation and forecast-generation scripts are presentation code or depend on random numbers and forecasting libraries.
- Probabilistic (CRPS), drift (KS) and turning-point metrics do not exist in the code.
