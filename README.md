# Poly-DashBoard core, modelled in Dafny

Poly-DashBoard is a Flask dashboard for a resource-distribution service. It
reports three things, and this project models the logic behind each of them:

- **The access-log histogram.** Each logged API access (`download`,
  `check_license`, ...) falls in a four-hour block of the day, `hour // 4`.
  Accesses are counted per (block, API). Each API seen gets six counts, one per
  block, with zero for an empty block. `get_chart_data` in `app_mysql.py`
  drops rows whose access time is NULL or is not a timestamp.
  `generate_radar_chart` in `access_log.py` drops NULL access times too, but
  fails on text that is not a timestamp. It also closes each series for the
  polar plot by repeating its first count.
- **The membership summary of the index page.** Every license row has a
  Discord id and an `allowModels` list. From these rows the page shows: how
  often each model is assigned (duplicates counted), the models assigned more
  than once, the number of distinct users, the number of licenses, the number
  of distinct models, and the total number of assignments.
- **The network throughput figure.** A sampler keeps the previous cumulative
  counter snapshot. Each call reports the difference from it in kilobits
  (bytes times 8, divided by 1000), then stores the current snapshot.

Files, one module each:

- `wrappers.dfy` (`Wrappers`): `Result`, for the conversion that raises.
- `counting.dfy` (`Counting`): `list.count` as `Occurrences`, the
  count-every-distinct-element dictionary as `Tally`, sums of sequences and of
  map values, and `SumOfValues`, the loop behind `sum(d.values())`.
- `membership.dfy` (`Membership`): `get_model_counts`,
  `get_dict_model_counts`, `get_user_counts` and the index page's headline
  numbers.
- `network_sampler.dfy` (`NetworkSampler`): `get_network_stats` as a class
  `Sampler` whose field `previous` is the module-level `previous_net_io`.
- `histogram.dfy` (`Histogram`): the time block, the group keys, the
  unstack/reindex to six counts, and the `get_chart_data` payload.
- `radar_chart.dfy` (`RadarChart`): the aggregation and series closing of
  `generate_radar_chart`.

How the inputs are made abstract:

- A log row is an API name plus an `AccessTime`: `At(hour)` for a timestamp,
  `Missing` for NULL, `Malformed` for text that `pd.to_datetime` cannot parse.
  Under `errors='coerce'` both of the last two become NaT and `dropna` removes
  them. Without it, NULL still becomes NaT, and the group-by drops its NaN
  block, while `Malformed` raises.
- A license row carries its `allowModels` list already decoded from JSON.
- A counter snapshot is a pair of integers.
- Rates are exact `real`s.

Behaviour of the code that the model keeps, although a cleaner design would differ:

- The sampler has no "first call reports zero" rule. Its baseline is the
  snapshot taken when the module loads (`app_mysql.py:11`), here the
  constructor's argument.
- The sampler does not clamp. A counter that went down gives a negative figure
  (`DecreasedCounterIsNegative`). It is not re-based to zero.
- In `access_log.py` a malformed access time aborts the whole aggregation
  (`RadarError.MalformedTimestamp`). Only `app_mysql.py` drops such rows.
- The block index is not clamped. No clamp is needed, since an hour is always
  0..23 (`TimeBlock`).

## Model

| member | source | states |
|---|---|---|
| `Counting.Occurrences` | app_mysql.py:38 | `all_models.count(m)` is at most the list's length, and it is positive exactly when `m` is in the list |
| `Counting.OccurrencesIsMultiplicity` | app_mysql.py:38 | the counting scan equals the multiplicity in the list's multiset |
| `Counting.Tally` | app_mysql.py:38 | the counts dictionary has exactly the list's distinct elements as keys, and every count is at least 1 |
| `Counting.TallySum` | app_mysql.py:112 | the counts of a tally add up to the length of the counted list |
| `Counting.SumOfValues` | app_mysql.py:112 | `sum(model_counts.values())` visits each key once and returns the sum of all values |
| `Membership.AllModelsAppend` | app_mysql.py:34-37 | extending the accumulator row by row makes the model list of `a + b` the model list of `a` followed by that of `b` |
| `Membership.AllModelsMembership` | app_mysql.py:34-37 | a model is in the accumulated list exactly when some row's `allowModels` holds it |
| `Membership.ModelCountsKeys` | app_mysql.py:38 | the keys of `get_model_counts` are exactly the models some row allows, so `license_rsc` is the number of distinct models |
| `Membership.ModelCountsSum` | app_mysql.py:111-112 | the model counts add up to the total length of all rows' lists (`assigned_rsc`) |
| `Membership.ModelCountsAdditive` | app_mysql.py:35-38 | for every model, counting rows `a + b` gives count(a) + count(b), with an absent model counting 0 |
| `Membership.ModelCountsOfRow` | app_mysql.py:36-38 | one row contributes every occurrence in its list, so a model listed twice in one row counts twice |
| `Membership.DictModelCountsIsFilter` | app_mysql.py:62 | `get_dict_model_counts` holds exactly the entries of `get_model_counts` with count > 1, so it is a sub-map whose every count is at least 2 |
| `Membership.GetModelCounts` | app_mysql.py:33-39 | the loop that extends the accumulator ends with each model mapped to its number of occurrences over all rows |
| `Membership.GetDictModelCounts` | app_mysql.py:57-63 | the loop ends with the models counted more than once, each with its full count, which is at least 2 |
| `Membership.GetUserCounts` | app_mysql.py:41-45 | the result is the number of distinct Discord ids; it is at most the number of rows, and 0 for no rows |
| `Membership.Summarize` | app_mysql.py:92-112 | the index figures: model counts, the duplicate view, distinct users, `license_cnt` = rows, `license_rsc` = distinct models, `assigned_rsc` = total assignments |
| `NetworkSampler.Kbps` | app_mysql.py:72-74 | a byte delta becomes kilobits (delta = kbps * 125), with no clamping: negative exactly for a negative delta, zero exactly for zero |
| `NetworkSampler.DecreasedCounterIsNegative` | app_mysql.py:68-73 | each of the two figures is negative exactly when its counter (sent, received) went down since the held snapshot |
| `NetworkSampler.RateExample` | app_mysql.py:68-74 | snapshots 1000/2000 then 1500/2800 bytes give 4.0 and 6.4 kilobits |
| `NetworkSampler.RunTelescopes` | app_mysql.py:65-79 | over a run of calls, the reported figures add up to the kilobits between the first baseline and the last snapshot |
| `NetworkSampler.Sampler.constructor` | app_mysql.py:11 | the held snapshot starts as the snapshot taken at start-up |
| `NetworkSampler.Sampler.GetNetworkStats` | app_mysql.py:65-79 | the result is the per-field difference from the held snapshot, scaled by 8/1000; afterwards the held snapshot is the current one, unconditionally |
| `NetworkSampler.Sampler.HistoryTelescopes` | app_mysql.py:65-79 | everything the sampler has reported adds up to the kilobits between its start-up baseline and its held snapshot |
| `Histogram.TimeBlock` | app_mysql.py:155 | `hour // 4` lies in 0..5, and it is the block whose window `[4b, 4b+4)` holds the hour |
| `Histogram.BlockBoundary` | access_log.py:52 | the last hour of a block and the first hour of the next fall in adjacent blocks (hours 3 and 4 in blocks 0 and 1) |
| `Histogram.LabelNamesBlock` | app_mysql.py:161 | there are six labels, and label `b` names the hour window `4b`-`4b+4` of block `b` |
| `Histogram.Unstack` | app_mysql.py:158-162 | the unstacked counts have exactly the APIs among the group keys as columns, each with a series of length 6 |
| `Histogram.ChartFacts` | app_mysql.py:153-162 | for every API: it is among the unstacked columns exactly when one of its rows has a timestamp, its six counts add up to its timestamped rows, and count `b` is its number of rows in block `b` |
| `Histogram.ApiCounts` | app_mysql.py:153-162 | an API has a series exactly when one of its rows has a timestamp; each series has six counts, count `b` being the API's rows in block `b`, adding up to the API's timestamped rows |
| `Histogram.GetChartData` | app_mysql.py:149-164 | the payload has six labels, label `b` naming the hours of block `b`; its data has a series exactly for the APIs with a timestamped row, each of six per-block counts adding up to the API's timestamped rows |
| `Histogram.GroupKeysAppend` | app_mysql.py:153-155 | the group keys of `a + b` are those of `a` followed by those of `b` |
| `Histogram.GroupKeysMembership` | app_mysql.py:153-155 | a (block, API) key occurs exactly for a row with a timestamp, with that row's block and API |
| `Histogram.TimestampedApis` | app_mysql.py:153-162 | an API gets a series exactly when some row of that API has a timestamp; other APIs get none |
| `Histogram.SeriesEntry` | access_log.py:55 | entry `b` of an API's series is the number of that API's timestamped rows that fall in block `b`, zero-filled |
| `Histogram.SeriesSum` | app_mysql.py:158-162 | an API's six counts add up to that API's number of timestamped rows |
| `Histogram.UnstackPermutation` | app_mysql.py:158 | the group-by result depends only on the multiset of group keys |
| `Histogram.ApiCountsOrderIndependent` | app_mysql.py:152-162 | reordering the log rows does not change the chart data |
| `Histogram.UntimedRowIgnored` | app_mysql.py:153-154 | a row without a timestamp (NULL or malformed) changes nothing, wherever it stands in the log |
| `Histogram.ChartExample` | app_mysql.py:153-162 | two downloads at hours 0 and 4 plus one license check at hour 0 give `[1,1,0,0,0,0]` and `[1,0,0,0,0,0]` |
| `RadarChart.CloseSeries` | access_log.py:65-67 | every column keeps its series, extended by its first count: length 7, last count equal to the first, the first six unchanged |
| `RadarChart.GenerateRadarSeries` | access_log.py:50-68 | it fails exactly when some access time is malformed; otherwise every API with a timestamped row, and only those, gets a closed series of length 7 whose last count repeats its first and whose first six are the block counts |
| `RadarChart.ClosedSeriesSum` | access_log.py:67-68 | a closed series adds up to the API's number of accesses plus its repeated first count |

## Left out

- MySQL access (`get_data`, `get_db_engine`, `create_log_table`, `log_down`, `log_check`, `insert_test_data`) is I/O. The rows are inputs to the model.
- `psutil` calls (`net_io_counters`, `get_system_performance`) are operating-system I/O. Counter snapshots are parameters.
- `get_folder_count` walks the filesystem, so it is not modelled.
- Membership.Summarize: has no folder counts (`uploaded_rsc_cnt`, `dummy_rsc_cnt`), because they come from `get_folder_count`, and no `network_stats` or `system_performance` (app_mysql.py:115-116), because those are `psutil` I/O. The page's network figure is a `Sampler.GetNetworkStats` call that the caller makes. Like any call, it replaces the held snapshot (app_mysql.py:70), so the next `/api/stats` figure covers only the bytes since that page load.
- Flask routes, `render_template`, `jsonify` and `json.dumps` are presentation.
- `json.loads` of `allowModels` is a foreign parser. Rows carry the decoded list. The code raises on a bad payload, so a malformed row is not modelled.
- A license row without a `discordID` or `allowModels` key raises `KeyError` in the code. Rows here always have both fields.
- `pd.to_datetime` is abstracted to an `AccessTime` per row. Date-string parsing and time zones are not modelled.
- Pandas drops a NULL `api_name` from a group-by. Here API names are always strings.
- The matplotlib drawing and the `np.linspace` angle list in `generate_radar_chart` are floating-point rendering. The closed series that would be plotted become the method's result.
- NetworkSampler.Sampler.GetNetworkStats: returns the exact rates, not the two-decimal strings `f"{...:.2f}"` produces. Python floats would also round very large deltas, which the exact reals do not.
- The module-level `previous_net_io` may be shared between Flask request threads. It is modelled as a field of a single-owner object, so races are not modelled.
- The order of dictionary keys in the JSON output does not matter, so it is not modelled. Maps have no order.
