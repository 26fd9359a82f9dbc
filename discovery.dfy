/**
 * Auto-discovery of the predefined forest datasets and the aggregation of their
 * processing results (toolbox v0.2.3 and its copy at the top of the source tree):
 * `get_predefined_datasets`, `discover_datasets` and `process_discovered_datasets`.
 * `arcpy.Exists` is the `probe` input; the per-layer host answers are `host`.
 */
module Discovery {
  import opened Wrappers
  import opened Seqs
  import opened LayerProcessing

  /** SR16 Dataset - Age Data. */
  const Sr16AgePaths: seq<string> := [
    "Grid_8m_SR16_Dataset/Grid_8m_SR16_srrhogstaar",
    "Grid_8m_SR16_Dataset/Grid_8m_SR16_srrtrealder",
    "Grid_8m_SR16_Dataset/Grid_8m_SR16_srrtrealder_l",
    "Grid_8m_SR16_Dataset/Grid_8m_SR16_srrtrealder_u"
  ]

  /** SR16 Dataset - Species Type. */
  const Sr16SpeciesPaths: seq<string> := [
    "Grid_8m_SR16_Dataset/Grid_8m_SR16_srrtreslag"
  ]

  /** SR16 Dataset - Biomass. */
  const Sr16BiomassPaths: seq<string> := [
    "Grid_8m_SR16_Dataset/Grid_8m_SR16_srrbmo",
    "Grid_8m_SR16_Dataset/Grid_8m_SR16_srrbmo_l",
    "Grid_8m_SR16_Dataset/Grid_8m_SR16_srrbmo_u",
    "Grid_8m_SR16_Dataset/Grid_8m_SR16_srrbmu",
    "Grid_8m_SR16_Dataset/Grid_8m_SR16_srrbmu_l",
    "Grid_8m_SR16_Dataset/Grid_8m_SR16_srrbmu_u"
  ]

  /** SR16 Dataset - Volume. */
  const Sr16VolumePaths: seq<string> := [
    "Grid_8m_SR16_Dataset/Grid_8m_SR16_srrvolmb",
    "Grid_8m_SR16_Dataset/Grid_8m_SR16_srrvolmb_l",
    "Grid_8m_SR16_Dataset/Grid_8m_SR16_srrvolmb_u",
    "Grid_8m_SR16_Dataset/Grid_8m_SR16_srrvolub",
    "Grid_8m_SR16_Dataset/Grid_8m_SR16_srrvolub_l",
    "Grid_8m_SR16_Dataset/Grid_8m_SR16_srrvolub_u"
  ]

  /** SR16 Dataset - Height. */
  const Sr16HeightPaths: seq<string> := [
    "Grid_8m_SR16_Dataset/Grid_8m_SR16_srrmhoyde",
    "Grid_8m_SR16_Dataset/Grid_8m_SR16_srrmhoyde_l",
    "Grid_8m_SR16_Dataset/Grid_8m_SR16_srrmhoyde_u",
    "Grid_8m_SR16_Dataset/Grid_8m_SR16_srrohoyde",
    "Grid_8m_SR16_Dataset/Grid_8m_SR16_srrohoyde_l",
    "Grid_8m_SR16_Dataset/Grid_8m_SR16_srrohoyde_u"
  ]

  /** SR16 Dataset - Site Index. */
  const Sr16SiteIndexPaths: seq<string> := [
    "Grid_8m_SR16_Dataset/Grid_8m_SR16_srrbonitet"
  ]

  /** SR16 Dataset - Diameter. */
  const Sr16DiameterPaths: seq<string> := [
    "Grid_8m_SR16_Dataset/Grid_8m_SR16_srrdiammiddel",
    "Grid_8m_SR16_Dataset/Grid_8m_SR16_srrdiammiddel_l",
    "Grid_8m_SR16_Dataset/Grid_8m_SR16_srrdiammiddel_u",
    "Grid_8m_SR16_Dataset/Grid_8m_SR16_srrdiammiddel_ge8",
    "Grid_8m_SR16_Dataset/Grid_8m_SR16_srrdiammiddel_ge8_l",
    "Grid_8m_SR16_Dataset/Grid_8m_SR16_srrdiammiddel_ge8_u"
  ]

  /** SR16 Dataset - Basal Area. */
  const Sr16BasalAreaPaths: seq<string> := [
    "Grid_8m_SR16_Dataset/Grid_8m_SR16_srrgrflate",
    "Grid_8m_SR16_Dataset/Grid_8m_SR16_srrgrflate_l",
    "Grid_8m_SR16_Dataset/Grid_8m_SR16_srrgrflate_u"
  ]

  /** SR16 Dataset - Tree Density. */
  const Sr16TreeDensityPaths: seq<string> := [
    "Grid_8m_SR16_Dataset/Grid_8m_SR16_srrtreantall",
    "Grid_8m_SR16_Dataset/Grid_8m_SR16_srrtreantall_l",
    "Grid_8m_SR16_Dataset/Grid_8m_SR16_srrtreantall_u",
    "Grid_8m_SR16_Dataset/Grid_8m_SR16_srrtreantall_ge8",
    "Grid_8m_SR16_Dataset/Grid_8m_SR16_srrtreantall_ge8_l",
    "Grid_8m_SR16_Dataset/Grid_8m_SR16_srrtreantall_ge8_u",
    "Grid_8m_SR16_Dataset/Grid_8m_SR16_srrtreantall_ge10",
    "Grid_8m_SR16_Dataset/Grid_8m_SR16_srrtreantall_ge10_l",
    "Grid_8m_SR16_Dataset/Grid_8m_SR16_srrtreantall_ge10_u",
    "Grid_8m_SR16_Dataset/Grid_8m_SR16_srrtreantall_ge16",
    "Grid_8m_SR16_Dataset/Grid_8m_SR16_srrtreantall_ge16_l",
    "Grid_8m_SR16_Dataset/Grid_8m_SR16_srrtreantall_ge16_u"
  ]

  /** SR16 Dataset - Leaf Area Index. */
  const Sr16LeafAreaPaths: seq<string> := [
    "Grid_8m_SR16_Dataset/Grid_8m_SR16_srrlai",
    "Grid_8m_SR16_Dataset/Grid_8m_SR16_srrlai_l",
    "Grid_8m_SR16_Dataset/Grid_8m_SR16_srrlai_u"
  ]

  /** SR16 Dataset - Crown Coverage. */
  const Sr16CrownPaths: seq<string> := [
    "Grid_8m_SR16_Dataset/Grid_8m_SR16_srrkronedek"
  ]

  /** Elevation Stats. */
  const ElevationPaths: seq<string> := [
    "Table_Grid_8m_ElevStats"
  ]

  /** AR5 Dataset - Soil Properties. */
  const Ar5Paths: seq<string> := [
    "Grid_8m_AR5_Dataset/Grid_8m_AR5_markfukt",
    "Grid_8m_AR5_Dataset/Grid_8m_AR5_artype",
    "Grid_8m_AR5_Dataset/Grid_8m_AR5_argrunnf"
  ]

  /** Location. */
  const LocationPaths: seq<string> := [
    "Grid_8m_Location"
  ]

  /** The 54 dataset paths the tool requires, in discovery order. */
  const PredefinedDatasets: seq<string> :=
    Sr16AgePaths + Sr16SpeciesPaths + Sr16BiomassPaths + Sr16VolumePaths + Sr16HeightPaths
    + Sr16SiteIndexPaths + Sr16DiameterPaths + Sr16BasalAreaPaths + Sr16TreeDensityPaths
    + Sr16LeafAreaPaths + Sr16CrownPaths + ElevationPaths + Ar5Paths + LocationPaths

  /** The list is fixed: 54 paths, among them the age grid, the species grid, the elevation table and the location grid. */
  lemma PredefinedDatasetsShape()
    ensures |PredefinedDatasets| == 54
    ensures PredefinedDatasets[0] == "Grid_8m_SR16_Dataset/Grid_8m_SR16_srrhogstaar"
    ensures PredefinedDatasets[4] == "Grid_8m_SR16_Dataset/Grid_8m_SR16_srrtreslag"
    ensures PredefinedDatasets[49] == "Table_Grid_8m_ElevStats"
    ensures PredefinedDatasets[53] == "Grid_8m_Location"
  {
  }

  // ------------------------------------------------------------------ discover_datasets

  /** What `arcpy.Exists(path)` does for a path: true, false, or raise. */
  datatype Probe = Exists | Absent | ProbeRaises

  /** Found means `Exists` answered true; a probe that raises counts as missing. */
  function IsFound(probe: string -> Probe): string -> bool
  {
    path => probe(path) == Exists
  }

  /** A filter keeps nothing exactly when no element passes its test. */
  lemma FilterEmpty<T>(xs: seq<T>, p: T -> bool)
    ensures Filter(xs, p) == [] <==> forall i :: 0 <= i < |xs| ==> !p(xs[i])
  {
    if Filter(xs, p) == [] {
      forall i | 0 <= i < |xs|
        ensures !p(xs[i])
      {
        if p(xs[i]) {
          FilterKeeps(xs, p, xs[i]);
        }
      }
    } else {
      FilterMembers(xs, p, Filter(xs, p)[0]);
    }
  }

  /** The loop of `discover_datasets` over the given paths. */
  method DiscoverIn(paths: seq<string>, probe: string -> Probe)
    returns (found: seq<string>, missing: seq<string>, successful: bool)
    ensures found == Filter(paths, IsFound(probe))
    ensures missing == Filter(paths, Not(IsFound(probe)))
    ensures successful <==> missing == []
  {
    ghost var present := IsFound(probe);
    found, missing := [], [];
    var k := 0;
    while k < |paths|
      invariant 0 <= k <= |paths|
      invariant found == Filter(paths[..k], present)
      invariant missing == Filter(paths[..k], Not(present))
    {
      var path := paths[k];
      assert paths[..k + 1] == paths[..k] + [path];
      FilterSnoc(paths[..k], path, present);
      FilterSnoc(paths[..k], path, Not(present));
      var answer := probe(path);
      if answer == Exists {
        found := found + [path];
      } else {
        missing := missing + [path];
      }
      k := k + 1;
    }
    assert paths[..k] == paths;
    successful := |missing| == 0;
  }

  /** `discover_datasets()`: the predefined paths split by the probe. The workspace argument is host state and not modelled. */
  method DiscoverDatasets(probe: string -> Probe) returns (found: seq<string>, missing: seq<string>, successful: bool)
    ensures found == Filter(PredefinedDatasets, IsFound(probe))
    ensures missing == Filter(PredefinedDatasets, Not(IsFound(probe)))
    ensures successful <==> missing == []
  {
    found, missing, successful := DiscoverIn(PredefinedDatasets, probe);
  }

  /**
   * Found and missing split the paths without loss, each keeping the list's
   * order, and discovery succeeds exactly when every path exists, in which case
   * every path is found.
   */
  lemma DiscoverySplit(paths: seq<string>, probe: string -> Probe)
    ensures multiset(Filter(paths, IsFound(probe))) + multiset(Filter(paths, Not(IsFound(probe)))) == multiset(paths)
    ensures |Filter(paths, IsFound(probe))| + |Filter(paths, Not(IsFound(probe)))| == |paths|
    ensures Filter(paths, Not(IsFound(probe))) == [] <==> forall i :: 0 <= i < |paths| ==> probe(paths[i]) == Exists
    ensures Filter(paths, Not(IsFound(probe))) == [] ==> Filter(paths, IsFound(probe)) == paths
  {
    FilterPartition(paths, IsFound(probe));
    FilterEmpty(paths, Not(IsFound(probe)));
    if Filter(paths, Not(IsFound(probe))) == [] {
      FilterAll(paths, IsFound(probe));
    }
  }

  // ------------------------------------------------------------------ process_discovered_datasets

  datatype Aggregated = Aggregated(totalDatasets: nat, successfullyProcessed: nat, failedDatasets: seq<string>,
                                   totalFields: nat, totalFeatures: nat, datasetResults: seq<LayerResults>)

  /** What `process_layer_basic` returns for each path. */
  function Outcome(host: string -> LayerHost): string -> LayerResults
  {
    path => BasicResults(path, host(path))
  }

  /** Whether the results for a path report success. */
  function Succeeded(outcome: string -> LayerResults): string -> bool
  {
    path => outcome(path).successful
  }

  /** A path succeeds exactly when its layer validates. */
  lemma SucceededIffAccessible(host: string -> LayerHost, path: string)
    ensures Succeeded(Outcome(host))(path) <==> Accessible(host(path))
  {
    BasicResultsSpec(path, host(path));
  }

  /** The results for each path, in order. */
  function ResultsOf(paths: seq<string>, outcome: string -> LayerResults): (rs: seq<LayerResults>)
    ensures |rs| == |paths|
  {
    if paths == [] then []
    else ResultsOf(paths[..|paths| - 1], outcome) + [outcome(paths[|paths| - 1])]
  }

  /** Entry `i` of the results is the outcome for path `i`. */
  lemma {:induction false} ResultsOfIndex(paths: seq<string>, outcome: string -> LayerResults, i: nat)
    requires i < |paths|
    ensures ResultsOf(paths, outcome)[i] == outcome(paths[i])
  {
    var n := |paths|;
    if i < n - 1 {
      assert paths[..n - 1][i] == paths[i];
      ResultsOfIndex(paths[..n - 1], outcome, i);
    }
  }

  lemma ResultsOfSnoc(paths: seq<string>, path: string, outcome: string -> LayerResults)
    ensures ResultsOf(paths + [path], outcome) == ResultsOf(paths, outcome) + [outcome(path)]
  {
    assert (paths + [path])[..|paths|] == paths;
  }

  function FieldCountOf(r: LayerResults): nat { r.fieldCount }

  function FeatureCountOf(r: LayerResults): nat { r.featureCount }

  /** The aggregate after processing `paths`: counters, failures, results and totals. */
  predicate Accounts(agg: Aggregated, paths: seq<string>, outcome: string -> LayerResults)
  {
    && agg.totalDatasets == |paths|
    && agg.datasetResults == ResultsOf(Filter(paths, Succeeded(outcome)), outcome)
    && agg.successfullyProcessed == |Filter(paths, Succeeded(outcome))|
    && agg.failedDatasets == Filter(paths, Not(Succeeded(outcome)))
    && agg.totalFields == Sum(agg.datasetResults, FieldCountOf)
    && agg.totalFeatures == Sum(agg.datasetResults, FeatureCountOf)
  }

  /** The body of the loop of `process_discovered_datasets` once `path` is processed: record its results. */
  method Record(agg: Aggregated, done: seq<string>, path: string, results: LayerResults,
                outcome: string -> LayerResults) returns (next: Aggregated)
    requires Accounts(agg, done, outcome) && results == outcome(path)
    ensures Accounts(next, done + [path], outcome)
  {
    FilterSnoc(done, path, Succeeded(outcome));
    FilterSnoc(done, path, Not(Succeeded(outcome)));
    assert Succeeded(outcome)(path) == results.successful;
    if results.successful {
      ResultsOfSnoc(Filter(done, Succeeded(outcome)), path, outcome);
      SumSnoc(agg.datasetResults, results, FieldCountOf);
      SumSnoc(agg.datasetResults, results, FeatureCountOf);
      next := Aggregated(agg.totalDatasets + 1, agg.successfullyProcessed + 1, agg.failedDatasets,
                         agg.totalFields + results.fieldCount, agg.totalFeatures + results.featureCount,
                         agg.datasetResults + [results]);
    } else {
      assert Filter(done + [path], Succeeded(outcome)) == Filter(done, Succeeded(outcome));
      next := agg.(totalDatasets := agg.totalDatasets + 1, failedDatasets := agg.failedDatasets + [path]);
    }
  }

  /** The loop of `process_discovered_datasets`. */
  method ProcessAll(paths: seq<string>, host: string -> LayerHost) returns (agg: Aggregated)
    ensures Accounts(agg, paths, Outcome(host))
  {
    agg := Aggregated(0, 0, [], 0, 0, []);
    var i := 0;
    while i < |paths|
      invariant 0 <= i <= |paths|
      invariant Accounts(agg, paths[..i], Outcome(host))
    {
      assert paths[..i + 1] == paths[..i] + [paths[i]];
      var results, _ := ProcessLayerBasic(paths[i], host(paths[i]));
      agg := Record(agg, paths[..i], paths[i], results, Outcome(host));
      i := i + 1;
    }
    assert paths[..i] == paths;
  }

  /**
   * `process_discovered_datasets(paths)`: every path is processed; the
   * successful results are kept in order, the failing paths listed, and the
   * totals are the sums over the kept results.
   */
  method ProcessDiscoveredDatasets(paths: seq<string>, host: string -> LayerHost) returns (agg: Aggregated)
    ensures agg.totalDatasets == |paths|
    ensures agg.datasetResults == ResultsOf(Filter(paths, Succeeded(Outcome(host))), Outcome(host))
    ensures agg.successfullyProcessed == |Filter(paths, Succeeded(Outcome(host)))|
    ensures agg.failedDatasets == Filter(paths, Not(Succeeded(Outcome(host))))
    ensures agg.totalFields == Sum(agg.datasetResults, FieldCountOf)
    ensures agg.totalFeatures == Sum(agg.datasetResults, FeatureCountOf)
  {
    agg := ProcessAll(paths, host);
  }

  /**
   * Every path is either counted as processed or listed as failed; the results
   * kept are exactly the successful ones, in path order, each the outcome of a
   * path whose layer validates; the failed paths are those whose layer does not.
   */
  lemma AggregationAccounts(paths: seq<string>, host: string -> LayerHost)
    ensures |Filter(paths, Succeeded(Outcome(host)))| + |Filter(paths, Not(Succeeded(Outcome(host))))| == |paths|
    ensures forall r :: r in ResultsOf(Filter(paths, Succeeded(Outcome(host))), Outcome(host)) ==> r.successful
    ensures forall p :: p in Filter(paths, Not(Succeeded(Outcome(host)))) ==> p in paths && !Accessible(host(p))
  {
    var ok := Succeeded(Outcome(host));
    FilterPartition(paths, ok);
    var rs := ResultsOf(Filter(paths, ok), Outcome(host));
    forall r | r in rs
      ensures r.successful
    {
      var i :| 0 <= i < |rs| && rs[i] == r;
      ResultsOfIndex(Filter(paths, ok), Outcome(host), i);
      FilterMembers(paths, ok, Filter(paths, ok)[i]);
    }
    forall p | p in Filter(paths, Not(ok))
      ensures p in paths && !Accessible(host(p))
    {
      FilterMembers(paths, Not(ok), p);
      SucceededIffAccessible(host, p);
    }
  }
}
