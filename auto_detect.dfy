/**
 * Layer auto-detection and the per-dataset field check of toolbox v0.2.1:
 * `auto_detect_input_layers` and `validate_auto_detected_layers`. The open
 * project is given as the layer and table names of its maps, and the host's
 * view of each layer as a map from layer name to what listing its fields gave:
 * the field names, or the error `ListFields` raised.
 */
module AutoDetect {
  import opened Wrappers
  import opened Text
  import opened Seqs
  import opened JsonValue
  import opened CatalogReaders

  /** The layer and table names of one map of the open project, in the host's order. */
  datatype MapContents = MapContents(layers: seq<string>, tables: seq<string>)

  /** The search pattern for a dataset name, by the first of its markers it contains. */
  function PatternFor(name: string): string
  {
    if Contains(name, "SR16") then "SR16"
    else if Contains(name, "AR5") then "AR5"
    else if Contains(name, "ElevStats") then "Elev"
    else if Contains(name, "Location") then "Location"
    else Lower(name)
  }

  /**
   * The pattern of a dataset name always matches that name: each marker is part
   * of the name ("Elev" of "ElevStats"), and otherwise the pattern is the name
   * itself, lower-cased. So a layer carrying the dataset's own name is found.
   */
  lemma PatternMatchesOwnName(name: string)
    ensures Matches(name, PatternFor(name))
  {
    var p := PatternFor(name);
    if Contains(name, "SR16") {
      ContainsLower(name, "SR16");
    } else if Contains(name, "AR5") {
      ContainsLower(name, "AR5");
    } else if Contains(name, "ElevStats") {
      var k :| 0 <= k <= |name| - |"ElevStats"| && OccursAt(name, "ElevStats", k);
      assert name[k..k + 4] == "ElevStats"[..4] == "Elev";
      assert OccursAt(name, "Elev", k);
      ContainsLower(name, "Elev");
    } else if Contains(name, "Location") {
      ContainsLower(name, "Location");
    } else {
      LowerTwice(name);
      assert OccursAt(Lower(name), Lower(p), 0);
    }
  }

  /** A dataset whose own name is a layer of the map is detected, as a layer. */
  lemma OwnNameDetected(m: MapContents, name: string)
    requires name in m.layers
    ensures Detect(m, PatternFor(name)).Some? && Detect(m, PatternFor(name)).value in m.layers
  {
    PatternMatchesOwnName(name);
    var i :| 0 <= i < |m.layers| && m.layers[i] == name;
    LayersBeforeTables(m, PatternFor(name), i);
  }

  /** `pattern.lower() in name.lower()`. */
  predicate Matches(name: string, pattern: string)
  {
    Contains(Lower(name), Lower(pattern))
  }

  /** The first name matching the pattern, if any. */
  function FirstMatch(names: seq<string>, pattern: string): Option<string>
  {
    if names == [] then None
    else if Matches(names[0], pattern) then Some(names[0])
    else FirstMatch(names[1..], pattern)
  }

  /**
   * `FirstMatch` finds nothing exactly when no name matches, and otherwise the
   * name at the lowest matching index.
   */
  lemma {:induction false} FirstMatchSpec(names: seq<string>, pattern: string)
    ensures FirstMatch(names, pattern).None? <==> forall i :: 0 <= i < |names| ==> !Matches(names[i], pattern)
    ensures FirstMatch(names, pattern).Some? ==> exists i :: (0 <= i < |names| && names[i] == FirstMatch(names, pattern).value
      && Matches(names[i], pattern) && forall k :: 0 <= k < i ==> !Matches(names[k], pattern))
  {
    if names != [] && !Matches(names[0], pattern) {
      FirstMatchSpec(names[1..], pattern);
      assert forall i :: 1 <= i < |names| ==> names[1..][i - 1] == names[i];
      if FirstMatch(names, pattern).Some? {
        var j :| 0 <= j < |names[1..]| && names[1..][j] == FirstMatch(names, pattern).value
          && Matches(names[1..][j], pattern) && forall k :: 0 <= k < j ==> !Matches(names[1..][k], pattern);
        assert names[j + 1] == FirstMatch(names, pattern).value;
      }
    }
  }

  /** Layers are searched first; tables only when no layer matches. */
  function Detect(m: MapContents, pattern: string): Option<string>
  {
    match FirstMatch(m.layers, pattern)
    case Some(name) => Some(name)
    case None => FirstMatch(m.tables, pattern)
  }

  /**
   * The error raised for an element of the required list that is not a string:
   * a list or object holding one of the markers gets a pattern but cannot be a
   * dict key (TypeError), one holding none has no `.lower()` (AttributeError),
   * and any other value fails the first `in` test (TypeError).
   */
  function NonStringError(d: Json): (e: PyError)
    ensures !d.JArr? && !d.JObj? ==> e == TypeError
    ensures e == TypeError || e == AttributeError
  {
    match d
    case JArr(items) =>
      if JStr("SR16") in items || JStr("AR5") in items || JStr("ElevStats") in items || JStr("Location") in items
      then TypeError else AttributeError
    case JObj(entries) =>
      if Lookup(entries, "SR16").Some? || Lookup(entries, "AR5").Some?
        || Lookup(entries, "ElevStats").Some? || Lookup(entries, "Location").Some?
      then TypeError else AttributeError
    case _ => TypeError
  }

  /**
   * The error is TypeError exactly when one of Python's `marker in d` tests
   * fails or succeeds, i.e. when a pattern was chosen for `d` or it supports no `in`.
   */
  lemma NonStringErrorIsIn(d: Json)
    requires !d.JStr?
    ensures NonStringError(d) == TypeError <==>
      (In("SR16", d) == Ok(true) || In("AR5", d) == Ok(true) || In("ElevStats", d) == Ok(true)
       || In("Location", d) == Ok(true) || In("SR16", d).Err?)
    ensures NonStringError(d) == AttributeError <==>
      (In("SR16", d) == Ok(false) && In("AR5", d) == Ok(false) && In("ElevStats", d) == Ok(false)
       && In("Location", d) == Ok(false))
  {
  }

  /** The search loop `for layer in ...: if pattern.lower() in layer.name.lower(): ... break`. */
  method FindFirst(names: seq<string>, pattern: string) returns (r: Option<string>)
    ensures r == FirstMatch(names, pattern)
  {
    var j := 0;
    while j < |names|
      invariant 0 <= j <= |names|
      invariant FirstMatch(names, pattern) == FirstMatch(names[j..], pattern)
    {
      if Matches(names[j], pattern) {
        return Some(names[j]);
      }
      assert names[j..][1..] == names[j + 1..];
      j := j + 1;
    }
    return None;
  }

  /**
   * The first matching layer is recorded for `name`; when there is none and
   * `name` is not yet recorded, the first matching table is.
   */
  predicate SearchStep(current: MapContents, before: map<string, string>, name: string, pattern: string,
                       after: map<string, string>)
  {
    && (FirstMatch(current.layers, pattern).Some? ==> after == before[name := FirstMatch(current.layers, pattern).value])
    && (FirstMatch(current.layers, pattern).None? && name in before ==> after == before)
    && (FirstMatch(current.layers, pattern).None? && name !in before ==>
         after == if FirstMatch(current.tables, pattern).Some? then before[name := FirstMatch(current.tables, pattern).value] else before)
  }

  /**
   * The body of the search for one dataset: the first matching layer is recorded;
   * only if the dataset is still unrecorded are the tables searched.
   */
  method DetectOne(current: MapContents, detected: map<string, string>, name: string, pattern: string)
    returns (out: map<string, string>)
    ensures SearchStep(current, detected, name, pattern, out)
  {
    out := detected;
    var layer := FindFirst(current.layers, pattern);
    if layer.Some? {
      out := out[name := layer.value];
    }
    if name !in out {
      var table := FindFirst(current.tables, pattern);
      if table.Some? {
        out := out[name := table.value];
      }
    }
  }

  /** `detected` holds, for dataset `d`, exactly what the search finds for it. */
  predicate Recorded(current: MapContents, detected: map<string, string>, d: string, patternFor: string -> string)
  {
    && (d in detected <==> Detect(current, patternFor(d)).Some?)
    && (d in detected ==> detected[d] == Detect(current, patternFor(d)).value)
  }

  /** One search step records `name` and keeps every dataset recorded before it. */
  lemma RecordedStep(current: MapContents, before: map<string, string>, after: map<string, string>, name: string,
                     patternFor: string -> string, seen: set<string>)
    requires SearchStep(current, before, name, patternFor(name), after)
    requires forall d :: d in seen ==> Recorded(current, before, d, patternFor)
    requires before.Keys <= seen
    ensures forall d :: d in seen + {name} ==> Recorded(current, after, d, patternFor)
    ensures after.Keys <= seen + {name}
  {
  }

  /** `names[i]` is the first element of `names` that is not a string. */
  predicate FirstNonString(names: seq<Json>, i: int)
  {
    0 <= i < |names| && !names[i].JStr? && forall k :: 0 <= k < i ==> names[k].JStr?
  }

  /**
   * The loop of `auto_detect_input_layers` over the required datasets, with the
   * pattern rule as a parameter: each string is looked up in the map; the first
   * element that is not a string stops it with the error Python raises for it.
   */
  method DetectAll(current: MapContents, names: seq<Json>, patternFor: string -> string)
    returns (r: Result<map<string, string>>)
    ensures r.Ok? <==> forall i :: 0 <= i < |names| ==> names[i].JStr?
    ensures r.Err? ==> exists i :: FirstNonString(names, i) && r.error == NonStringError(names[i])
    ensures r.Ok? ==> forall d :: d in r.value ==> JStr(d) in names
    ensures r.Ok? ==> forall i :: 0 <= i < |names| ==> Recorded(current, r.value, names[i].s, patternFor)
  {
    var detected: map<string, string> := map[];
    ghost var seen: set<string> := {};
    var i := 0;
    while i < |names|
      invariant 0 <= i <= |names|
      invariant forall k :: 0 <= k < i ==> names[k].JStr? && names[k].s in seen
      invariant forall d :: d in seen ==> JStr(d) in names
      invariant forall d :: d in seen ==> Recorded(current, detected, d, patternFor)
      invariant detected.Keys <= seen
    {
      if !names[i].JStr? {
        r := Err(NonStringError(names[i]));
        assert FirstNonString(names, i) && r.error == NonStringError(names[i]);
        return;
      }
      var name := names[i].s;
      var next := DetectOne(current, detected, name, patternFor(name));
      RecordedStep(current, detected, next, name, patternFor, seen);
      detected := next;
      seen := seen + {name};
      i := i + 1;
    }
    return Ok(detected);
  }

  /**
   * `auto_detect_input_layers()` with ArcPy present: the first map of the project
   * is searched for each required dataset. Any failure, including an empty
   * project and the errors of `get_required_input_datasets`, is re-raised as a
   * RuntimeError wrapping it.
   */
  method AutoDetectInputLayers(maps: seq<MapContents>, doc: Json) returns (r: Result<map<string, string>>)
    ensures maps == [] ==> r == Err(RuntimeError(NoMaps))
    ensures maps != [] && GetRequiredInputDatasets(doc).Err? ==> r == Err(RuntimeError(GetRequiredInputDatasets(doc).error))
    ensures r.Ok? <==> (maps != [] && GetRequiredInputDatasets(doc).Ok?
      && forall i :: 0 <= i < |GetRequiredInputDatasets(doc).value| ==> GetRequiredInputDatasets(doc).value[i].JStr?)
    ensures maps != [] && GetRequiredInputDatasets(doc).Ok? && r.Err? ==>
      exists i :: FirstNonString(GetRequiredInputDatasets(doc).value, i)
        && r == Err(RuntimeError(NonStringError(GetRequiredInputDatasets(doc).value[i])))
    ensures r.Ok? ==> forall d :: d in r.value ==> JStr(d) in GetRequiredInputDatasets(doc).value
    ensures r.Ok? ==> forall d :: JStr(d) in GetRequiredInputDatasets(doc).value ==> Recorded(maps[0], r.value, d, PatternFor)
  {
    if maps == [] {
      return Err(RuntimeError(NoMaps));
    }
    var required := GetRequiredInputDatasets(doc);
    if required.Err? {
      return Err(RuntimeError(required.error));
    }
    var detected := DetectAll(maps[0], required.value, PatternFor);
    if detected.Err? {
      return Err(RuntimeError(detected.error));
    }
    r := detected;
    forall d | JStr(d) in required.value
      ensures Recorded(maps[0], r.value, d, PatternFor)
    {
      var i :| 0 <= i < |required.value| && required.value[i] == JStr(d);
    }
  }

  /** Tables are consulted only when no layer matches: a matching layer always wins. */
  lemma LayersBeforeTables(m: MapContents, pattern: string, i: nat)
    requires i < |m.layers| && Matches(m.layers[i], pattern)
    ensures Detect(m, pattern).Some? && Detect(m, pattern).value in m.layers
  {
    FirstMatchSpec(m.layers, pattern);
    var j :| 0 <= j < |m.layers| && m.layers[j] == FirstMatch(m.layers, pattern).value
      && Matches(m.layers[j], pattern) && forall k :: 0 <= k < j ==> !Matches(m.layers[k], pattern);
  }

  /** Either a dict of detected layers, or any other value passed in its place. */
  datatype DetectedLayers = Dict(entries: map<string, string>) | NotDict

  const NotDictMessage := "detected_layers must be a dictionary"

  function UnknownDatasetMessage(d: string): string
  {
    "Dataset '" + d + "' not found in IMPORT_FIELDS mapping"
  }

  function MissingLayerMessage(layer: string): string
  {
    "Layer/table '" + layer + "' does not exist"
  }

  /**
   * What `arcpy.ListFields(layer)` gave for an existing layer: its field names, or
   * the exception it raised. A layer absent from the host's map does not exist.
   */
  datatype LayerRead = Fields(names: seq<string>) | ListFieldsFails(failure: PyError)

  /**
   * One entry of the result of `validate_auto_detected_layers`; `error` holds the
   * exception caught while checking the layer, if any.
   */
  datatype LayerCheck = LayerCheck(layerName: string, passed: bool, found: nat, expected: nat,
                                   missing: seq<string>, error: Option<PyError>)

  /** At least 80% of a non-empty list of expected fields is present, in integers. */
  predicate Passes(found: nat, expected: nat)
  {
    expected > 0 && 5 * found >= 4 * expected
  }

  /** Dividing by a positive `y` and comparing with `c` is comparing `x` with `c * y`. */
  lemma QuotientAtLeast(x: real, y: real, c: real)
    requires y > 0.0
    ensures x / y >= c <==> x >= c * y
  {
    var q := x / y;
    assert q * y == x;
    if q >= c {
      var d := q - c;
      assert d * y >= 0.0;
      assert d * y == x - c * y;
    } else {
      var d := c - q;
      assert d * y > 0.0;
      assert d * y == c * y - x;
    }
  }

  /** The integer test is the rate test `found / expected >= 0.80` read over the rationals. */
  lemma PassesIsRate(found: nat, expected: nat)
    requires expected > 0
    ensures Passes(found, expected) <==> (found as real) / (expected as real) >= 0.8
  {
    QuotientAtLeast(found as real, expected as real, 0.8);
  }

  /** The reference result for dataset `d` detected as `layer`. */
  function CheckLayer(mapping: map<string, DatasetInfo>, layers: map<string, LayerRead>,
                      d: string, layer: string): LayerCheck
  {
    if d !in mapping then
      LayerCheck(layer, false, 0, 0, [], Some(KeyError(UnknownDatasetMessage(d))))
    else if layer !in layers then
      LayerCheck(layer, false, 0, |mapping[d].fields|, [], Some(ValueError(MissingLayerMessage(layer))))
    else if layers[layer].ListFieldsFails? then
      LayerCheck(layer, false, 0, |mapping[d].fields|, [], Some(layers[layer].failure))
    else
      var expected := mapping[d].fields;
      var found := Filter(expected, InList(layers[layer].names));
      LayerCheck(layer, Passes(|found|, |expected|), |found|, |expected|,
                 Filter(expected, Not(InList(layers[layer].names))), None)
  }

  /**
   * What one entry reports: an unknown dataset, a missing layer or a failing
   * field listing is recorded as the error and fails; otherwise the expected
   * fields split into found and missing, and the entry passes exactly when 80% of
   * a non-empty list is found.
   */
  lemma CheckLayerSpec(mapping: map<string, DatasetInfo>, layers: map<string, LayerRead>,
                       d: string, layer: string)
    ensures var c := CheckLayer(mapping, layers, d, layer);
      && c.layerName == layer
      && (c.error.None? <==> d in mapping && layer in layers && layers[layer].Fields?)
      && (d !in mapping ==> c.error == Some(KeyError(UnknownDatasetMessage(d))) && c.expected == 0)
      && (d in mapping ==> c.expected == |mapping[d].fields|)
      && (d in mapping && layer !in layers ==> c.error == Some(ValueError(MissingLayerMessage(layer))))
      && (d in mapping && layer in layers && layers[layer].ListFieldsFails? ==>
            c.error == Some(layers[layer].failure))
      && (c.error.Some? ==> !c.passed && c.found == 0 && c.missing == [])
      && (c.passed <==> c.error.None? && Passes(c.found, c.expected))
      && (c.error.None? ==>
        && c.found + |c.missing| == c.expected
        && (forall f :: f in c.missing <==> f in mapping[d].fields && f !in layers[layer].names))
  {
    if d in mapping && layer in layers && layers[layer].Fields? {
      var expected := mapping[d].fields;
      var names := layers[layer].names;
      var present := InList(names);
      FilterPartition(expected, present);
      forall f
        ensures f in Filter(expected, Not(present)) <==> f in expected && f !in names
      {
        if f in Filter(expected, Not(present)) {
          FilterMembers(expected, Not(present), f);
        }
        if f in expected && f !in names {
          FilterKeeps(expected, Not(present), f);
        }
      }
    }
  }

  /** Three of four expected fields is 75%: below the threshold; four of five is exactly on it. */
  lemma ThresholdExamples()
    ensures !Passes(3, 4) && Passes(4, 5) && !Passes(0, 0)
  {
  }

  /** The body of the loop of `validate_auto_detected_layers` for one entry. */
  method CheckOne(mapping: map<string, DatasetInfo>, layers: map<string, LayerRead>,
                  d: string, layer: string) returns (result: LayerCheck)
    ensures result == CheckLayer(mapping, layers, d, layer)
  {
    result := LayerCheck(layer, false, 0, 0, [], None);
    if d !in mapping {
      return result.(error := Some(KeyError(UnknownDatasetMessage(d))));
    }
    var expected := mapping[d].fields;
    result := result.(expected := |expected|);
    if layer !in layers {
      return result.(error := Some(ValueError(MissingLayerMessage(layer))));
    }
    if layers[layer].ListFieldsFails? {
      return result.(error := Some(layers[layer].failure));
    }
    var fieldNames := layers[layer].names;
    ghost var present := InList(fieldNames);
    var found, missing := [], [];
    var k := 0;
    while k < |expected|
      invariant 0 <= k <= |expected|
      invariant found == Filter(expected[..k], present)
      invariant missing == Filter(expected[..k], Not(present))
    {
      var field := expected[k];
      assert expected[..k + 1] == expected[..k] + [field];
      FilterSnoc(expected[..k], field, present);
      FilterSnoc(expected[..k], field, Not(present));
      if field in fieldNames {
        found := found + [field];
      } else {
        missing := missing + [field];
      }
      k := k + 1;
    }
    assert expected[..k] == expected;
    result := result.(found := |found|, missing := missing);
    if |expected| > 0 {
      result := result.(passed := 5 * |found| >= 4 * |expected|);
    }
  }

  /**
   * `validate_auto_detected_layers(detected_layers)`: a non-dict argument and a
   * failing read of the field mapping raise; otherwise every detected dataset
   * gets its own entry, checked independently of the others.
   */
  method ValidateAutoDetectedLayers(detected: DetectedLayers, doc: Json, layers: map<string, LayerRead>)
    returns (r: Result<map<string, LayerCheck>>)
    requires Parsed(doc)
    ensures detected.NotDict? ==> r == Err(ValueError(NotDictMessage))
    ensures detected.Dict? && DatasetFieldMapping(doc).Err? ==> r == Err(DatasetFieldMapping(doc).error)
    ensures r.Ok? <==> detected.Dict? && DatasetFieldMapping(doc).Ok?
    ensures r.Ok? ==> r.value.Keys == detected.entries.Keys
    ensures r.Ok? ==> forall d :: d in r.value ==>
      r.value[d] == CheckLayer(DatasetFieldMapping(doc).value, layers, d, detected.entries[d])
  {
    if detected.NotDict? {
      return Err(ValueError(NotDictMessage));
    }
    var mapping :- GetDatasetFieldMapping(doc);
    var results: map<string, LayerCheck> := map[];
    var remaining := detected.entries.Keys;
    while remaining != {}
      invariant remaining <= detected.entries.Keys
      invariant results.Keys == detected.entries.Keys - remaining
      invariant forall d :: d in results ==> results[d] == CheckLayer(mapping, layers, d, detected.entries[d])
      decreases remaining
    {
      var d :| d in remaining;
      var check := CheckOne(mapping, layers, d, detected.entries[d]);
      results := results[d := check];
      remaining := remaining - {d};
    }
    return Ok(results);
  }

  /**
   * On a successful read, the number of fields a detected dataset is checked
   * against is the number of fields the categories naming it list.
   */
  lemma ExpectedFromCategories(doc: Json, layers: map<string, LayerRead>, d: string, layer: string)
    requires DatasetFieldMapping(doc).Ok? && d in DatasetFieldMapping(doc).value
    ensures doc.JObj? && Lookup(doc.entries, "field_categories").Some?
    ensures Lookup(doc.entries, "field_categories").value.JObj?
    ensures CheckLayer(DatasetFieldMapping(doc).value, layers, d, layer).expected
      == |FieldsFor(Lookup(doc.entries, "field_categories").value.entries, d)|
  {
    DatasetFieldMappingShape(doc);
  }
}
