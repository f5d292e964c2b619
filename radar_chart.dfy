/**
 The radar-chart variant of the access-log histogram: the same six-block counts,
 except that text that is not a timestamp aborts the conversion; each series is
 closed for the polar plot by repeating its first count at the end.
 */
module RadarChart {
  import opened Wrappers
  import opened Counting
  import opened Histogram

  /** Why the aggregation stops: some access time is not a timestamp, so the
      conversion raises and no chart is drawn. */
  datatype RadarError = MalformedTimestamp

  /** Some access time is text that is not a timestamp. */
  predicate HasMalformed(rows: seq<AccessRow>)
  {
    exists i :: 0 <= i < |rows| && rows[i].accessTime.Malformed?
  }

  /** The loop over the columns: every series gets its first count appended,
      so the polar outline ends where it starts. */
  method CloseSeries(counts: map<string, seq<nat>>) returns (plotted: map<string, seq<nat>>)
    requires forall api :: api in counts ==> |counts[api]| == NumBlocks
    ensures plotted.Keys == counts.Keys
    ensures forall api :: api in plotted ==>
      |plotted[api]| == NumBlocks + 1 && plotted[api][NumBlocks] == plotted[api][0] &&
      plotted[api][..NumBlocks] == counts[api]
  {
    var columns := counts.Keys;
    plotted := map[];
    while columns != {}
      invariant columns <= counts.Keys
      invariant plotted.Keys == counts.Keys - columns
      invariant forall api :: api in plotted ==>
        |plotted[api]| == NumBlocks + 1 && plotted[api][NumBlocks] == plotted[api][0] &&
        plotted[api][..NumBlocks] == counts[api]
      decreases columns
    {
      var api :| api in columns;
      var values := counts[api];
      values := values + values[..1];
      plotted := plotted[api := values];
      columns := columns - {api};
    }
  }

  /** `generate_radar_chart` up to the plot: either the error of the strict
      conversion, or, for every API with a timestamped access, its six block counts followed by
      the first of them again, as handed to the polar plot. */
  method GenerateRadarSeries(rows: seq<AccessRow>) returns (result: Result<map<string, seq<nat>>, RadarError>)
    ensures result.Failure? <==> HasMalformed(rows)
    ensures result.Success? ==> result.value.Keys == ApiCounts(rows).Keys
    ensures result.Success? ==> forall api :: api in result.value <==>
      exists i :: 0 <= i < |rows| && rows[i].apiName == api && rows[i].accessTime.At?
    ensures result.Success? ==> forall api :: api in result.value ==>
      var closed := result.value[api];
      |closed| == NumBlocks + 1 && closed[NumBlocks] == closed[0] && closed[..NumBlocks] == ApiCounts(rows)[api]
  {
    if HasMalformed(rows) {
      return Failure(MalformedTimestamp);
    }
    var apiCounts := ApiCounts(rows);
    var plotted := CloseSeries(apiCounts);
    result := Success(plotted);
  }

  /** A closed series adds up to its API's number of accesses plus the
      repeated first count. */
  lemma ClosedSeriesSum(rows: seq<AccessRow>, api: string)
    requires api in ApiCounts(rows)
    ensures var s := ApiCounts(rows)[api];
      Sum(s + s[..1]) == ParsedCount(rows, api) + s[0]
  {
    var s := ApiCounts(rows)[api];
    SeriesSum(rows, api);
    assert s == BlockCounts(GroupKeys(rows), api);
    assert (s + s[..1])[..|s|] == s;
  }
}
