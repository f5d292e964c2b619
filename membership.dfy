/**
 The membership summary of the dashboard's index page: which resource models the
 registered licenses allow, how often each is assigned, and how many distinct
 users hold licenses.
 */
module Membership {
  import opened Counting

  /** One row of the license table: the owner's Discord id and its `allowModels`
      list, already decoded from its JSON text. */
  datatype LicenseRow = LicenseRow(discordId: string, allowModels: seq<string>)

  /** The headline numbers and maps the index page is rendered with. */
  datatype IndexSummary = IndexSummary(
    modelCounts: map<string, nat>,
    dictModelCounts: map<string, nat>,
    userCounts: nat,
    licenseCnt: nat,
    licenseRsc: nat,
    assignedRsc: nat)

  /** Every row's model list, concatenated in row order: the `all_models` accumulator. */
  function AllModels(data: seq<LicenseRow>): seq<string>
  {
    if data == [] then []
    else AllModels(data[..|data| - 1]) + data[|data| - 1].allowModels
  }

  /** The models some row allows. */
  ghost function Models(data: seq<LicenseRow>): set<string>
  {
    set i, m | 0 <= i < |data| && m in data[i].allowModels :: m
  }

  /** The distinct Discord ids among the rows. */
  ghost function DiscordIds(data: seq<LicenseRow>): set<string>
  {
    set i | 0 <= i < |data| :: data[i].discordId
  }

  /** `get_model_counts`: each allowed model mapped to its number of occurrences
      across all the rows' lists. */
  function ModelCounts(data: seq<LicenseRow>): map<string, nat>
  {
    Tally(AllModels(data))
  }

  /** `get_dict_model_counts`: the models with more than one occurrence, with their counts. */
  function DictModelCounts(data: seq<LicenseRow>): map<string, nat>
  {
    var all := AllModels(data);
    map m | m in all && Occurrences(all, m) > 1 :: Occurrences(all, m)
  }

  /** Count of `m` in a count map, zero when absent. */
  function CountOf(counts: map<string, nat>, m: string): nat
  {
    if m in counts then counts[m] else 0
  }

  /** Concatenating row sequences concatenates their model lists. */
  lemma {:induction false} AllModelsAppend(a: seq<LicenseRow>, b: seq<LicenseRow>)
    ensures AllModels(a + b) == AllModels(a) + AllModels(b)
    decreases |b|
  {
    if b == [] {
      assert a + b == a;
    } else {
      var n := |b| - 1;
      assert (a + b)[..|a + b| - 1] == a + b[..n];
      AllModelsAppend(a, b[..n]);
    }
  }

  /** A model appears in the concatenation exactly when some row lists it. */
  lemma {:induction false} AllModelsMembership(data: seq<LicenseRow>, m: string)
    ensures m in AllModels(data) <==> exists i :: 0 <= i < |data| && m in data[i].allowModels
  {
    if data != [] {
      var n := |data| - 1;
      AllModelsMembership(data[..n], m);
      if m in data[n].allowModels {
        assert m in AllModels(data);
      }
      if exists i :: 0 <= i < |data| && m in data[i].allowModels {
        var i :| 0 <= i < |data| && m in data[i].allowModels;
        if i < n {
          assert data[..n][i] == data[i];
        }
      }
    }
  }

  /** The keys of the model counts are exactly the models some row allows,
      so license_rsc (the number of keys) is the number of distinct models. */
  lemma ModelCountsKeys(data: seq<LicenseRow>)
    ensures ModelCounts(data).Keys == Models(data)
  {
    forall m | true
      ensures m in ModelCounts(data) <==> m in Models(data)
    {
      AllModelsMembership(data, m);
    }
  }

  /** The model counts add up to the total length of all rows' lists
      (assigned_rsc counts every assignment, duplicates included). */
  lemma ModelCountsSum(data: seq<LicenseRow>)
    ensures SumValues(ModelCounts(data)) == |AllModels(data)|
  {
    TallySum(AllModels(data));
  }

  /** Counting the rows of two batches together gives, for every model, the sum
      of the two batches' counts. */
  lemma ModelCountsAdditive(a: seq<LicenseRow>, b: seq<LicenseRow>, m: string)
    ensures CountOf(ModelCounts(a + b), m) == CountOf(ModelCounts(a), m) + CountOf(ModelCounts(b), m)
  {
    AllModelsAppend(a, b);
    OccurrencesAppend(AllModels(a), AllModels(b), m);
  }

  /** A single row contributes every occurrence in its own list, so a model
      listed twice in one row is counted twice. */
  lemma ModelCountsOfRow(row: LicenseRow, m: string)
    ensures CountOf(ModelCounts([row]), m) == Occurrences(row.allowModels, m)
  {
    assert [row][..0] == [];
    assert AllModels([row]) == row.allowModels;
  }

  /** The duplicate view is the model counts restricted to counts above one:
      a sub-map of them in which every count is at least two. */
  lemma DictModelCountsIsFilter(data: seq<LicenseRow>)
    ensures forall m :: m in DictModelCounts(data) <==> m in ModelCounts(data) && ModelCounts(data)[m] > 1
    ensures forall m :: m in DictModelCounts(data) ==> DictModelCounts(data)[m] == ModelCounts(data)[m] >= 2
  {
  }

  /** `get_model_counts`: extends one accumulator with every row's list, then
      counts each distinct model in it. */
  method GetModelCounts(data: seq<LicenseRow>) returns (modelCounts: map<string, nat>)
    ensures modelCounts == ModelCounts(data)
  {
    var allModels: seq<string> := [];
    for i := 0 to |data|
      invariant allModels == AllModels(data[..i])
    {
      assert data[..i + 1][..i] == data[..i];
      allModels := allModels + data[i].allowModels;
    }
    assert data[..|data|] == data;
    modelCounts := map model | model in allModels :: Occurrences(allModels, model);
  }

  /** `get_dict_model_counts`: the same accumulation, keeping only the models
      counted more than once. */
  method GetDictModelCounts(data: seq<LicenseRow>) returns (dictModelCounts: map<string, nat>)
    ensures dictModelCounts == DictModelCounts(data)
    ensures forall m :: m in dictModelCounts <==> m in ModelCounts(data) && ModelCounts(data)[m] > 1
    ensures forall m :: m in dictModelCounts ==> dictModelCounts[m] == ModelCounts(data)[m] >= 2
  {
    var allModels: seq<string> := [];
    for i := 0 to |data|
      invariant allModels == AllModels(data[..i])
    {
      assert data[..i + 1][..i] == data[..i];
      allModels := allModels + data[i].allowModels;
    }
    assert data[..|data|] == data;
    dictModelCounts := map model | model in allModels && Occurrences(allModels, model) > 1
                                 :: Occurrences(allModels, model);
    DictModelCountsIsFilter(data);
  }

  /** `get_user_counts`: collects the Discord ids in a set and returns its size,
      which is at most the number of rows, and zero for no rows. */
  method GetUserCounts(data: seq<LicenseRow>) returns (count: nat)
    ensures count == |DiscordIds(data)|
    ensures count <= |data|
    ensures data == [] ==> count == 0
  {
    var discordIds: set<string> := {};
    for i := 0 to |data|
      invariant discordIds == DiscordIds(data[..i])
      invariant |discordIds| <= i
    {
      assert DiscordIds(data[..i + 1]) == DiscordIds(data[..i]) + {data[i].discordId} by {
        assert forall j :: 0 <= j < i ==> data[..i + 1][j] == data[..i][j];
      }
      discordIds := discordIds + {data[i].discordId};
    }
    assert data[..|data|] == data;
    count := |discordIds|;
  }

  /** The index page's figures: the model counts, the duplicate view, the user
      count, license_cnt (rows), license_rsc (distinct models) and assigned_rsc
      (sum of the model counts). */
  method Summarize(data: seq<LicenseRow>) returns (s: IndexSummary)
    ensures s.modelCounts == ModelCounts(data)
    ensures s.dictModelCounts == DictModelCounts(data)
    ensures s.userCounts == |DiscordIds(data)| <= |data|
    ensures s.licenseCnt == |data|
    ensures s.licenseRsc == |Models(data)|
    ensures s.assignedRsc == |AllModels(data)|
  {
    var modelCounts := GetModelCounts(data);
    var userCounts := GetUserCounts(data);
    var dictModelCounts := GetDictModelCounts(data);
    var assignedRsc := SumOfValues(modelCounts);
    ModelCountsKeys(data);
    ModelCountsSum(data);
    s := IndexSummary(modelCounts, dictModelCounts, userCounts, |data|, |modelCounts|, assignedRsc);
  }
}
