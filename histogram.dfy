/**
 The access-log histogram behind the dashboard's chart: every access of an API is
 placed in one of six four-hour blocks of the day, accesses are counted per
 (block, API), and every API seen gets six counts, one per block.
 */
module Histogram {
  import opened Counting

  /** An hour of the day, as a timestamp's `.dt.hour` yields it. */
  type Hour = h: int | 0 <= h < 24

  /** Number of four-hour blocks in a day. */
  const NumBlocks: int := 6

  /** The chart's axis labels, block 0 first. */
  const Labels: seq<string> := ["0-4", "4-8", "8-12", "12-16", "16-20", "20-24"]

  /** The access time of a log row, as timestamp conversion sees it: a
      timestamp with its hour of day, a NULL value, or text that is not a
      timestamp. */
  datatype AccessTime = At(hour: Hour) | Missing | Malformed

  /** One row of the access log. */
  datatype AccessRow = AccessRow(apiName: string, accessTime: AccessTime)

  /** The `/api/chart-data` payload: the labels and one series per API. */
  datatype ChartData = ChartData(labels: seq<string>, data: map<string, seq<nat>>)

  /** `hour // 4`: the block whose four-hour window holds `hour`. */
  function TimeBlock(hour: Hour): (b: int)
    ensures 0 <= b < NumBlocks
    ensures 4 * b <= hour < 4 * b + 4
  {
    hour / 4
  }

  /** The last hour of a block and the first hour of the next fall in adjacent blocks. */
  lemma BlockBoundary(b: int)
    requires 1 <= b < NumBlocks
    ensures TimeBlock(4 * b - 1) + 1 == TimeBlock(4 * b)
  {
  }

  /** Decimal digits of a natural number. */
  function Decimal(n: nat): (s: string)
    ensures |s| >= 1
  {
    var d := ["0", "1", "2", "3", "4", "5", "6", "7", "8", "9"][n % 10];
    if n < 10 then d else Decimal(n / 10) + d
  }

  /** Label `b` names the window of hours `4b` to `4b + 4` that block `b` covers. */
  lemma LabelNamesBlock()
    ensures |Labels| == NumBlocks
    ensures forall b :: 0 <= b < NumBlocks ==> Labels[b] == Decimal(4 * b) + "-" + Decimal(4 * b + 4)
  {
    forall b | 0 <= b < NumBlocks
      ensures Labels[b] == Decimal(4 * b) + "-" + Decimal(4 * b + 4)
    {
      if b == 3 {
        assert Decimal(12) == "12" && Decimal(16) == "16";
      } else if b == 4 {
        assert Decimal(16) == "16" && Decimal(20) == "20";
      } else if b == 5 {
        assert Decimal(20) == "20" && Decimal(24) == "24";
      } else if b == 2 {
        assert Decimal(12) == "12";
      }
    }
  }

  /** The (time_block, api_name) group key of every row with a timestamp, in
      row order. Rows without one are dropped: both kinds become NaT, which the
      `dropna` removes in one version and the group-by in the other. */
  function GroupKeys(rows: seq<AccessRow>): seq<(int, string)>
  {
    if rows == [] then []
    else
      var r := rows[|rows| - 1];
      GroupKeys(rows[..|rows| - 1]) +
        match r.accessTime
        case At(h) => [(TimeBlock(h), r.apiName)]
        case _ => []
  }

  /** The APIs among a sequence of group keys: the columns after the unstack. */
  function ApiNames(keys: seq<(int, string)>): set<string>
  {
    set k | k in keys :: k.1
  }

  /** One API's counts for blocks 0..5 among the group keys, zero where the API
      has no access in a block (the `reindex(range(6), fill_value=0)`). */
  function BlockCounts(keys: seq<(int, string)>, api: string): seq<nat>
  {
    seq(NumBlocks, b => Occurrences(keys, (b, api)))
  }

  /** The group-by size and unstack: one six-count series per API among the keys. */
  function Unstack(keys: seq<(int, string)>): (h: map<string, seq<nat>>)
    ensures h.Keys == ApiNames(keys)
    ensures forall api :: api in h ==> |h[api]| == NumBlocks
  {
    map api | api in ApiNames(keys) :: BlockCounts(keys, api)
  }

  /** Number of rows of `api` with a timestamp. */
  function ParsedCount(rows: seq<AccessRow>, api: string): nat
  {
    if rows == [] then 0
    else
      var r := rows[|rows| - 1];
      ParsedCount(rows[..|rows| - 1], api) + (if r.apiName == api && r.accessTime.At? then 1 else 0)
  }

  /** Group keys of a concatenation are the concatenation of the group keys. */
  lemma {:induction false} GroupKeysAppend(a: seq<AccessRow>, b: seq<AccessRow>)
    ensures GroupKeys(a + b) == GroupKeys(a) + GroupKeys(b)
    decreases |b|
  {
    if b == [] {
      assert a + b == a;
    } else {
      var n := |b| - 1;
      assert (a + b)[..|a + b| - 1] == a + b[..n];
      assert (a + b)[|a + b| - 1] == b[n];
      GroupKeysAppend(a, b[..n]);
    }
  }

  /** A group key occurs exactly for a row with a timestamp, with that
      row's block and API. */
  lemma {:induction false} GroupKeysMembership(rows: seq<AccessRow>, k: (int, string))
    ensures k in GroupKeys(rows) <==>
      exists i :: 0 <= i < |rows| && rows[i].accessTime.At? &&
        k == (TimeBlock(rows[i].accessTime.hour), rows[i].apiName)
  {
    if rows != [] {
      var n := |rows| - 1;
      GroupKeysMembership(rows[..n], k);
      if exists i :: 0 <= i < |rows| && rows[i].accessTime.At? &&
          k == (TimeBlock(rows[i].accessTime.hour), rows[i].apiName) {
        var i :| 0 <= i < |rows| && rows[i].accessTime.At? &&
          k == (TimeBlock(rows[i].accessTime.hour), rows[i].apiName);
        if i < n {
          assert rows[..n][i] == rows[i];
        }
      }
    }
  }

  /** An API gets a series exactly when some row of it has an access time that
      is a timestamp: other rows are excluded, and absent APIs get none. */
  lemma TimestampedApis(rows: seq<AccessRow>, api: string)
    ensures api in ApiNames(GroupKeys(rows)) <==>
      exists i :: 0 <= i < |rows| && rows[i].apiName == api && rows[i].accessTime.At?
  {
    if exists i :: 0 <= i < |rows| && rows[i].apiName == api && rows[i].accessTime.At? {
      var i :| 0 <= i < |rows| && rows[i].apiName == api && rows[i].accessTime.At?;
      GroupKeysMembership(rows, (TimeBlock(rows[i].accessTime.hour), api));
    }
    if api in ApiNames(GroupKeys(rows)) {
      var k :| k in GroupKeys(rows) && k.1 == api;
      GroupKeysMembership(rows, k);
    }
  }

  /** Row `r` is an access of `api` with a timestamp and falls in block `b`. */
  predicate InBlock(r: AccessRow, api: string, b: int)
  {
    r.apiName == api && r.accessTime.At? && TimeBlock(r.accessTime.hour) == b
  }

  /** Indices of the rows that are accesses of `api` in block `b`. */
  ghost function Hits(rows: seq<AccessRow>, api: string, b: int): set<int>
  {
    set i | 0 <= i < |rows| && InBlock(rows[i], api, b)
  }

  /** Entry `b` of a series counts the accesses of that API in block `b`. */
  lemma {:induction false} SeriesEntry(rows: seq<AccessRow>, api: string, b: int)
    requires 0 <= b < NumBlocks
    ensures BlockCounts(GroupKeys(rows), api)[b] == |Hits(rows, api, b)|
  {
    if rows == [] {
      assert Hits(rows, api, b) == {};
      assert BlockCounts(GroupKeys(rows), api)[b] == Occurrences([], (b, api)) == 0;
    } else {
      var n := |rows| - 1;
      var r := rows[n];
      SeriesEntry(rows[..n], api, b);
      var tail := match r.accessTime
        case At(h) => [(TimeBlock(h), r.apiName)]
        case _ => [];
      assert GroupKeys(rows) == GroupKeys(rows[..n]) + tail;
      OccurrencesAppend(GroupKeys(rows[..n]), tail, (b, api));
      assert BlockCounts(GroupKeys(rows), api)[b] == BlockCounts(GroupKeys(rows[..n]), api)[b] + Occurrences(tail, (b, api));
      HitsStep(rows, api, b);
    }
  }

  /** Taking in the last row adds its index exactly when it is a hit. */
  lemma HitsStep(rows: seq<AccessRow>, api: string, b: int)
    requires rows != []
    ensures var n := |rows| - 1;
      Hits(rows, api, b) == Hits(rows[..n], api, b) + (if InBlock(rows[n], api, b) then {n} else {})
  {
    var n := |rows| - 1;
    forall i | 0 <= i < n
      ensures InBlock(rows[..n][i], api, b) == InBlock(rows[i], api, b)
    {
    }
  }

  /** Taking in the last row adds one to the entry of its block in its API's
      series, and changes no other entry. */
  lemma SeriesStep(rows: seq<AccessRow>, api: string, b: int)
    requires rows != [] && 0 <= b < NumBlocks
    ensures var n := |rows| - 1;
      BlockCounts(GroupKeys(rows), api)[b] == BlockCounts(GroupKeys(rows[..n]), api)[b] + (if InBlock(rows[n], api, b) then 1 else 0)
  {
    var n := |rows| - 1;
    var r := rows[n];
    var tail := match r.accessTime
      case At(h) => [(TimeBlock(h), r.apiName)]
      case _ => [];
    var ks := GroupKeys(rows[..n]);
    assert GroupKeys(rows) == ks + tail;
    OccurrencesAppend(ks, tail, (b, api));
  }

  /** A series adds up to its API's number of rows with a timestamp. */
  lemma {:induction false} SeriesSum(rows: seq<AccessRow>, api: string)
    ensures Sum(BlockCounts(GroupKeys(rows), api)) == ParsedCount(rows, api)
  {
    if rows == [] {
      SumOfZeros(BlockCounts(GroupKeys(rows), api));
    } else {
      var n := |rows| - 1;
      var r := rows[n];
      var before, after := BlockCounts(GroupKeys(rows[..n]), api), BlockCounts(GroupKeys(rows), api);
      SeriesSum(rows[..n], api);
      assert ParsedCount(rows, api) ==
        ParsedCount(rows[..n], api) + (if r.apiName == api && r.accessTime.At? then 1 else 0);
      var t := if r.apiName == api && r.accessTime.At? then TimeBlock(r.accessTime.hour) else -1;
      forall b | 0 <= b < NumBlocks
        ensures after[b] == before[b] + (if b == t then 1 else 0)
      {
        SeriesStep(rows, api, b);
      }
      SumStep(before, after, t);
    }
  }

  /** What the unstacked counts of a log mean, for every API and block. */
  lemma ChartFacts(rows: seq<AccessRow>)
    ensures forall api :: api in ApiNames(GroupKeys(rows)) <==>
      exists i :: 0 <= i < |rows| && rows[i].apiName == api && rows[i].accessTime.At?
    ensures forall api :: Sum(BlockCounts(GroupKeys(rows), api)) == ParsedCount(rows, api)
    ensures forall api, b :: 0 <= b < NumBlocks ==> BlockCounts(GroupKeys(rows), api)[b] == |Hits(rows, api, b)|
  {
    forall api
      ensures api in ApiNames(GroupKeys(rows)) <==>
        exists i :: 0 <= i < |rows| && rows[i].apiName == api && rows[i].accessTime.At?
      ensures Sum(BlockCounts(GroupKeys(rows), api)) == ParsedCount(rows, api)
    {
      TimestampedApis(rows, api);
      SeriesSum(rows, api);
    }
    forall api, b | 0 <= b < NumBlocks
      ensures BlockCounts(GroupKeys(rows), api)[b] == |Hits(rows, api, b)|
    {
      SeriesEntry(rows, api, b);
    }
  }

  /** The aggregation pipeline of both chart versions: an API gets a series
      exactly when one of its rows has a timestamp; the series has six counts,
      count `b` being the API's accesses in block `b`, and they add up to the
      API's timestamped rows. */
  function ApiCounts(rows: seq<AccessRow>): (h: map<string, seq<nat>>)
    ensures forall api :: api in h <==>
      exists i :: 0 <= i < |rows| && rows[i].apiName == api && rows[i].accessTime.At?
    ensures forall api :: api in h ==>
      |h[api]| == NumBlocks && Sum(h[api]) == ParsedCount(rows, api) &&
      forall b :: 0 <= b < NumBlocks ==> h[api][b] == |Hits(rows, api, b)|
  {
    ChartFacts(rows);
    Unstack(GroupKeys(rows))
  }

  /** `get_chart_data`, after the query: one label per block, label `b` naming
      the hours of block `b`, and the histogram of the timestamped rows. */
  function GetChartData(rows: seq<AccessRow>): (c: ChartData)
    ensures |c.labels| == NumBlocks
    ensures forall b :: 0 <= b < NumBlocks ==> c.labels[b] == Decimal(4 * b) + "-" + Decimal(4 * b + 4)
    ensures forall api :: api in c.data <==>
      exists i :: 0 <= i < |rows| && rows[i].apiName == api && rows[i].accessTime.At?
    ensures forall api :: api in c.data ==>
      |c.data[api]| == NumBlocks && Sum(c.data[api]) == ParsedCount(rows, api) &&
      forall b :: 0 <= b < NumBlocks ==> c.data[api][b] == |Hits(rows, api, b)|
  {
    LabelNamesBlock();
    ChartData(Labels, ApiCounts(rows))
  }

  /** Reordering the rows keeps the multiset of group keys. */
  lemma {:induction false} GroupKeysPermutation(rows: seq<AccessRow>, other: seq<AccessRow>)
    requires multiset(rows) == multiset(other)
    ensures multiset(GroupKeys(rows)) == multiset(GroupKeys(other))
    decreases |rows|
  {
    if rows == [] {
      assert other == [];
    } else {
      var n := |rows| - 1;
      var r := rows[n];
      var left, right := SplitAtLast(rows, other);
      GroupKeysPermutation(rows[..n], left + right);
      assert rows == rows[..n] + [r];
      GroupKeysAppend(rows[..n], [r]);
      KeysAround(left, r, right);
    }
  }

  /** The group keys of `left + [r] + right`, as a multiset, are those of
      `left + right` plus those of `r`. */
  lemma KeysAround(left: seq<AccessRow>, r: AccessRow, right: seq<AccessRow>)
    ensures multiset(GroupKeys(left + [r] + right)) == multiset(GroupKeys(left + right)) + multiset(GroupKeys([r]))
  {
    GroupKeysAppend(left, [r]);
    GroupKeysAppend(left + [r], right);
    GroupKeysAppend(left, right);
    var gl, gm, gr := GroupKeys(left), GroupKeys([r]), GroupKeys(right);
    assert GroupKeys(left + [r] + right) == gl + gm + gr;
    assert GroupKeys(left + right) == gl + gr;
  }

  /** Unstacking depends only on the multiset of group keys. */
  lemma UnstackPermutation(ks: seq<(int, string)>, ko: seq<(int, string)>)
    requires multiset(ks) == multiset(ko)
    ensures Unstack(ks) == Unstack(ko)
  {
    forall k | k in ks
      ensures k in ko
    {
      assert k in multiset(ks);
    }
    forall k | k in ko
      ensures k in ks
    {
      assert k in multiset(ko);
    }
    assert ApiNames(ks) == ApiNames(ko);
    forall api | api in ApiNames(ks)
      ensures BlockCounts(ks, api) == BlockCounts(ko, api)
    {
      forall b | 0 <= b < NumBlocks
        ensures Occurrences(ks, (b, api)) == Occurrences(ko, (b, api))
      {
        OccurrencesIsMultiplicity(ks, (b, api));
        OccurrencesIsMultiplicity(ko, (b, api));
      }
    }
  }

  /** The chart does not depend on the order of the log rows. */
  lemma ApiCountsOrderIndependent(rows: seq<AccessRow>, other: seq<AccessRow>)
    requires multiset(rows) == multiset(other)
    ensures ApiCounts(rows) == ApiCounts(other)
  {
    GroupKeysPermutation(rows, other);
    UnstackPermutation(GroupKeys(rows), GroupKeys(other));
  }

  /** A row without a timestamp changes nothing, wherever it stands. */
  lemma UntimedRowIgnored(before: seq<AccessRow>, r: AccessRow, after: seq<AccessRow>)
    requires !r.accessTime.At?
    ensures ApiCounts(before + [r] + after) == ApiCounts(before + after)
  {
    GroupKeysAppend(before, [r]);
    GroupKeysAppend(before + [r], after);
    GroupKeysAppend(before, after);
    assert [r][..0] == [];
    assert GroupKeys([r]) == [];
    assert GroupKeys(before + [r] + after) == GroupKeys(before + after);
  }

  /** Two downloads at hours 0 and 4 and one license check at hour 0. */
  const ExampleRows: seq<AccessRow> :=
    [AccessRow("download", At(0)), AccessRow("check_license", At(0)), AccessRow("download", At(4))]

  /** The group keys of the example rows. */
  const ExampleKeys: seq<(int, string)> := [(0, "download"), (0, "check_license"), (1, "download")]

  /** The example rows all have timestamps, giving one group key each. */
  lemma ExampleGroupKeys()
    ensures GroupKeys(ExampleRows) == ExampleKeys
  {
    var rows := ExampleRows;
    assert rows[..2][..1][..0] == [];
    assert rows[..2][..1] == rows[..1];
    assert GroupKeys(rows[..1]) == ExampleKeys[..1];
    assert GroupKeys(rows[..2]) == ExampleKeys[..2];
  }

  /** Block counts of the example keys, per API. */
  lemma ExampleBlockCounts()
    ensures BlockCounts(ExampleKeys, "download") == [1, 1, 0, 0, 0, 0]
    ensures BlockCounts(ExampleKeys, "check_license") == [1, 0, 0, 0, 0, 0]
  {
    var ks := ExampleKeys;
    assert ks[..2][..1][..0] == [];
    assert ks[..2][..1] == ks[..1];
  }

  /** The example gives the series [1, 1, 0, 0, 0, 0] for downloads and
      [1, 0, 0, 0, 0, 0] for license checks. */
  lemma ChartExample()
    ensures ApiCounts(ExampleRows)
         == map["download" := [1, 1, 0, 0, 0, 0], "check_license" := [1, 0, 0, 0, 0, 0]]
  {
    ExampleGroupKeys();
    ExampleBlockCounts();
    assert ApiNames(ExampleKeys) == {"download", "check_license"};
  }
}
