/**
 * Basic processing of one layer, shared verbatim by toolboxes v0.2.1, v0.2.3
 * and v0.2.4: `get_field_info`, `read_sample_features` and
 * `process_layer_basic`. The host's answers for a layer (does it exist, its
 * fields, its feature count, the rows a search cursor yields) are inputs; a
 * host call that raises is an input value of its own.
 */
module LayerProcessing {
  import opened Wrappers

  /** A field as `arcpy.ListFields` describes it; attributes it may lack are options. */
  datatype FieldDef = FieldDef(name: string, fieldType: string, length: Option<int>,
                               aliasName: Option<string>, editable: Option<bool>)

  /** The entry `get_field_info` keeps per field name. */
  datatype FieldInfo = FieldInfo(fieldType: string, length: Option<int>, alias: string, editable: bool)

  /** A cell a search cursor yields: None, or some value. */
  datatype Cell = NullCell | Value(text: string)

  /** The rows a search cursor yields for the requested fields, or the exception it raises. */
  datatype Cursor = Rows(rows: seq<seq<Cell>>) | CursorRaises

  /**
   * What the host answers about one layer: whether `Exists` and `Describe`
   * succeed, `ListFields` (None when it raises), `GetCount` (None when it
   * raises) and the search cursor over the data fields.
   */
  datatype LayerHost = LayerHost(present: bool, describable: bool, fields: Option<seq<FieldDef>>,
                                 count: Option<nat>, cursor: Cursor)

  datatype DataQuality = DataQuality(hasGeometry: bool, hasNullValues: bool, sampleSize: nat)

  /** The results dict of `process_layer_basic`; the last two keys are only set once reached. */
  datatype LayerResults = LayerResults(layerPath: string, fieldCount: nat, featureCount: nat,
                                       sampleData: seq<map<string, Cell>>, successful: bool,
                                       fieldInfo: Option<map<string, FieldInfo>>, quality: Option<DataQuality>)

  const SampleSize: nat := 5

  /** The progress percentages reported by a run that gets past validation. */
  const ProgressSteps: seq<nat> := [5, 15, 35, 60, 80, 100]

  // ------------------------------------------------------------------ get_field_info

  /** The dict entry for one field, with the `getattr` defaults. */
  function InfoOf(f: FieldDef): FieldInfo
  {
    FieldInfo(f.fieldType, f.length,
              if f.aliasName.Some? then f.aliasName.value else f.name,
              if f.editable.Some? then f.editable.value else true)
  }

  /** `field_info[field.name] = ...` over the fields in order: a later field of the same name wins. */
  function FieldInfoMap(fields: seq<FieldDef>): map<string, FieldInfo>
  {
    if fields == [] then map[]
    else FieldInfoMap(fields[..|fields| - 1])[fields[|fields| - 1].name := InfoOf(fields[|fields| - 1])]
  }

  function NameSet(fields: seq<FieldDef>): set<string>
  {
    set i | 0 <= i < |fields| :: fields[i].name
  }

  /** One more field adds its name to the set of names. */
  lemma NameSetSnoc(fields: seq<FieldDef>)
    requires fields != []
    ensures NameSet(fields) == NameSet(fields[..|fields| - 1]) + {fields[|fields| - 1].name}
  {
    var n := |fields|;
    var init := fields[..n - 1];
    forall x | x in NameSet(fields)
      ensures x in NameSet(init) + {fields[n - 1].name}
    {
      var i :| 0 <= i < n && fields[i].name == x;
      if i < n - 1 {
        assert init[i] == fields[i];
      }
    }
    forall x | x in NameSet(init)
      ensures x in NameSet(fields)
    {
      var i :| 0 <= i < n - 1 && init[i].name == x;
      assert fields[i] == init[i];
    }
  }

  /** The dict is keyed by exactly the field names, so `len(field_info)` counts distinct names. */
  lemma {:induction false} FieldInfoMapKeys(fields: seq<FieldDef>)
    ensures FieldInfoMap(fields).Keys == NameSet(fields)
    ensures |FieldInfoMap(fields)| == |NameSet(fields)|
  {
    if fields != [] {
      FieldInfoMapKeys(fields[..|fields| - 1]);
      NameSetSnoc(fields);
    }
  }

  /** A field whose name does not occur again later is the one its name maps to. */
  lemma {:induction false} FieldInfoMapLast(fields: seq<FieldDef>, i: nat)
    requires i < |fields|
    requires forall j :: i < j < |fields| ==> fields[j].name != fields[i].name
    ensures fields[i].name in FieldInfoMap(fields) && FieldInfoMap(fields)[fields[i].name] == InfoOf(fields[i])
  {
    var n := |fields|;
    if i < n - 1 {
      var init := fields[..n - 1];
      assert init[i] == fields[i];
      forall j | i < j < n - 1
        ensures init[j].name != init[i].name
      {
        assert init[j] == fields[j];
      }
      FieldInfoMapLast(init, i);
    }
  }

  /** With distinct field names, one entry per field. */
  lemma DistinctNamesCount(fields: seq<FieldDef>)
    requires forall i, j :: 0 <= i < j < |fields| ==> fields[i].name != fields[j].name
    ensures |FieldInfoMap(fields)| == |fields|
  {
    FieldInfoMapKeys(fields);
    NameSetSize(fields);
  }

  lemma {:induction false} NameSetSize(fields: seq<FieldDef>)
    requires forall i, j :: 0 <= i < j < |fields| ==> fields[i].name != fields[j].name
    ensures |NameSet(fields)| == |fields|
  {
    if fields != [] {
      var n := |fields|;
      var init := fields[..n - 1];
      NameSetSize(init);
      NameSetSnoc(fields);
      forall x | x in NameSet(init)
        ensures x != fields[n - 1].name
      {
        var i :| 0 <= i < n - 1 && init[i].name == x;
        assert fields[i] == init[i];
      }
    }
  }

  /** `get_field_info(layer)`: the loop over `ListFields`; `{}` when the host raises. */
  method GetFieldInfo(fields: Option<seq<FieldDef>>) returns (info: map<string, FieldInfo>)
    ensures info == if fields.Some? then FieldInfoMap(fields.value) else map[]
  {
    info := map[];
    if fields.None? {
      return;
    }
    var fs := fields.value;
    var k := 0;
    while k < |fs|
      invariant 0 <= k <= |fs|
      invariant info == FieldInfoMap(fs[..k])
    {
      assert fs[..k + 1][..k] == fs[..k];
      info := info[fs[k].name := InfoOf(fs[k])];
      k := k + 1;
    }
    assert fs[..k] == fs;
  }

  // ------------------------------------------------------------------ read_sample_features

  /** Fields other than the object id and the geometry. */
  predicate IsDataField(f: FieldDef)
  {
    f.fieldType != "OID" && f.fieldType != "Geometry"
  }

  /** `[f.name for f in fields if f.type not in ["OID", "Geometry"]]`. */
  function DataFields(fields: seq<FieldDef>): (names: seq<string>)
    ensures |names| <= |fields|
    ensures forall x :: x in names <==> exists i :: 0 <= i < |fields| && fields[i].name == x && IsDataField(fields[i])
  {
    if fields == [] then []
    else
      var init, last := fields[..|fields| - 1], fields[|fields| - 1];
      assert forall i :: 0 <= i < |init| ==> init[i] == fields[i];
      DataFields(init) + (if IsDataField(last) then [last.name] else [])
  }

  /** `{field: row[j] for j, field in enumerate(data_fields)}` for a row at least as long. */
  function RowDict(names: seq<string>, row: seq<Cell>): (d: map<string, Cell>)
    requires |names| <= |row|
    ensures d.Keys == set x | x in names
  {
    if names == [] then map[]
    else RowDict(names[..|names| - 1], row)[names[|names| - 1] := row[|names| - 1]]
  }

  /** A name listed once maps to the cell in its own column. */
  lemma {:induction false} RowDictCell(names: seq<string>, row: seq<Cell>, j: nat)
    requires |names| <= |row| && j < |names|
    requires forall k :: 0 <= k < |names| && k != j ==> names[k] != names[j]
    ensures RowDict(names, row)[names[j]] == row[j]
  {
    var n := |names|;
    if j < n - 1 {
      var init := names[..n - 1];
      assert init[j] == names[j];
      forall k | 0 <= k < n - 1 && k != j
        ensures init[k] != init[j]
      {
        assert init[k] == names[k];
      }
      RowDictCell(init, row, j);
    }
  }

  /**
   * The dicts built from the given rows, in order; None when a row is too short,
   * where the comprehension raises IndexError.
   */
  function RowDicts(names: seq<string>, rows: seq<seq<Cell>>): (r: Option<seq<map<string, Cell>>>)
    ensures r.Some? ==> |r.value| == |rows|
    ensures r.Some? <==> forall i :: 0 <= i < |rows| ==> |names| <= |rows[i]|
    ensures r.Some? ==> forall i :: 0 <= i < |rows| ==> r.value[i] == RowDict(names, rows[i])
  {
    if rows == [] then Some([])
    else
      var init, last := rows[..|rows| - 1], rows[|rows| - 1];
      assert forall i :: 0 <= i < |init| ==> init[i] == rows[i];
      match RowDicts(names, init)
      case None => None
      case Some(ds) => if |last| < |names| then None else Some(ds + [RowDict(names, last)])
  }

  /** `read_sample_features(layer, sample_size)`; every failure gives the empty list. */
  function SampleOf(fields: Option<seq<FieldDef>>, cursor: Cursor, sampleSize: nat): seq<map<string, Cell>>
  {
    if fields.None? || DataFields(fields.value) == [] || cursor.CursorRaises? then []
    else
      var taken := cursor.rows[..Taken(sampleSize, |cursor.rows|)];
      match RowDicts(DataFields(fields.value), taken)
      case None => []
      case Some(ds) => ds
  }

  /** How many rows the cursor loop reads before `break`: `min(sample_size, rows)`. */
  function Taken(sampleSize: nat, available: nat): (n: nat)
    ensures n <= sampleSize && n <= available
    ensures n == sampleSize || n == available
  {
    if sampleSize <= available then sampleSize else available
  }

  /**
   * At most `sample_size` rows; sampled dict i maps each data field to its cell in
   * row i of the cursor. No field list, no data fields, a raising cursor or a
   * short row among those read give the empty list; when every row read is
   * complete, exactly the first `min(sample_size, rows)` rows are sampled.
   */
  lemma SampleOfSpec(fields: Option<seq<FieldDef>>, cursor: Cursor, sampleSize: nat)
    ensures |SampleOf(fields, cursor, sampleSize)| <= sampleSize
    ensures cursor.Rows? ==> |SampleOf(fields, cursor, sampleSize)| <= |cursor.rows|
    ensures forall i :: 0 <= i < |SampleOf(fields, cursor, sampleSize)| ==>
      SampleOf(fields, cursor, sampleSize)[i].Keys == set x | x in DataFields(fields.value)
    ensures forall i :: 0 <= i < |SampleOf(fields, cursor, sampleSize)| ==>
      fields.Some? && cursor.Rows? && i < |cursor.rows| && |DataFields(fields.value)| <= |cursor.rows[i]|
      && SampleOf(fields, cursor, sampleSize)[i] == RowDict(DataFields(fields.value), cursor.rows[i])
    ensures fields.None? || cursor.CursorRaises? ==> SampleOf(fields, cursor, sampleSize) == []
    ensures fields.Some? && DataFields(fields.value) == [] ==> SampleOf(fields, cursor, sampleSize) == []
    ensures fields.Some? && cursor.Rows?
      && (exists i :: 0 <= i < Taken(sampleSize, |cursor.rows|) && |cursor.rows[i]| < |DataFields(fields.value)|)
      ==> SampleOf(fields, cursor, sampleSize) == []
    ensures (fields.Some? && DataFields(fields.value) != [] && cursor.Rows?
      && (forall i :: 0 <= i < |cursor.rows| ==> |DataFields(fields.value)| <= |cursor.rows[i]|))
      ==> |SampleOf(fields, cursor, sampleSize)| == Taken(sampleSize, |cursor.rows|)
  {
    if fields.Some? && DataFields(fields.value) != [] && cursor.Rows? {
      var names := DataFields(fields.value);
      var taken := cursor.rows[..Taken(sampleSize, |cursor.rows|)];
      RowDictsKeys(names, taken);
      if RowDicts(names, taken).Some? {
        forall i | 0 <= i < |taken|
          ensures taken[i] == cursor.rows[i]
        {
        }
      }
    }
  }

  lemma {:induction false} RowDictsKeys(names: seq<string>, rows: seq<seq<Cell>>)
    ensures RowDicts(names, rows).Some? ==>
      forall i :: 0 <= i < |rows| ==> RowDicts(names, rows).value[i].Keys == set x | x in names
  {
    if rows != [] {
      RowDictsKeys(names, rows[..|rows| - 1]);
    }
  }

  /** The cursor loop of `read_sample_features`, stopping at `sample_size` rows. */
  method ReadSampleFeatures(fields: Option<seq<FieldDef>>, cursor: Cursor, sampleSize: nat)
    returns (sample: seq<map<string, Cell>>)
    ensures sample == SampleOf(fields, cursor, sampleSize)
  {
    sample := [];
    if fields.None? {
      return;
    }
    var names := DataFields(fields.value);
    if names == [] || cursor.CursorRaises? {
      return;
    }
    var rows := cursor.rows;
    ghost var stop := Taken(sampleSize, |rows|);
    var i := 0;
    while i < |rows|
      invariant 0 <= i <= stop
      invariant RowDicts(names, rows[..i]) == Some(sample)
    {
      if i >= sampleSize {
        break;
      }
      var row := rows[i];
      assert rows[..i + 1][..i] == rows[..i];
      if |row| < |names| {
        assert RowDicts(names, rows[..stop]) == None by {
          RowDictsShort(names, rows[..stop], i);
        }
        return [];
      }
      sample := sample + [RowDict(names, row)];
      i := i + 1;
    }
    assert rows[..i] == rows[..stop];
  }

  /** One short row among those read makes the whole read fail. */
  lemma RowDictsShort(names: seq<string>, rows: seq<seq<Cell>>, i: nat)
    requires i < |rows| && |rows[i]| < |names|
    ensures RowDicts(names, rows) == None
  {
  }

  // ------------------------------------------------------------------ process_layer_basic

  /** `None in row.values()` for some sampled row. */
  predicate HasNullValues(sample: seq<map<string, Cell>>)
  {
    exists i, x :: 0 <= i < |sample| && x in sample[i] && sample[i][x] == NullCell
  }

  /** `any(None in row.values() for row in sample_data)`. */
  function AnyNull(sample: seq<map<string, Cell>>): (b: bool)
    ensures b <==> HasNullValues(sample)
  {
    if sample == [] then false
    else
      var init, last := sample[..|sample| - 1], sample[|sample| - 1];
      assert forall i :: 0 <= i < |init| ==> init[i] == sample[i];
      AnyNull(init) || exists x :: x in last && last[x] == NullCell
  }

  /** `validate_layer_exists`: the layer exists and can be described. */
  predicate Accessible(host: LayerHost)
  {
    host.present && host.describable
  }

  function InitialResults(path: string): LayerResults
  {
    LayerResults(path, 0, 0, [], false, None, None)
  }

  /** What `process_layer_basic` returns for the layer at `path`. */
  function BasicResults(path: string, host: LayerHost): LayerResults
  {
    if !Accessible(host) then InitialResults(path)
    else
      var info := if host.fields.Some? then FieldInfoMap(host.fields.value) else map[];
      var sample := SampleOf(host.fields, host.cursor, SampleSize);
      LayerResults(path, |info|, if host.count.Some? then host.count.value else 0, sample, true, Some(info),
                   Some(DataQuality(true, AnyNull(sample), |sample|)))
  }

  /**
   * A layer that fails validation gets the initial results; any other is
   * processed successfully with one entry per distinct field name, the host's
   * feature count (0 if it raises), at most five sampled rows, and a quality
   * record whose sample size is the number of rows and whose null flag tells
   * whether a sampled row holds None.
   */
  lemma BasicResultsSpec(path: string, host: LayerHost)
    ensures var r := BasicResults(path, host);
      && r.layerPath == path
      && (r.successful <==> Accessible(host))
      && (!r.successful ==> r == InitialResults(path))
      && (!r.successful ==> r.fieldCount == 0 && r.featureCount == 0 && r.sampleData == [])
      && (r.successful ==> r.fieldCount == (if host.fields.Some? then |NameSet(host.fields.value)| else 0))
      && (r.successful && host.count.Some? ==> r.featureCount == host.count.value)
      && (r.successful && host.count.None? ==> r.featureCount == 0)
      && (r.successful ==> r.fieldInfo == Some(if host.fields.Some? then FieldInfoMap(host.fields.value) else map[]))
      && (r.successful ==> r.sampleData == SampleOf(host.fields, host.cursor, SampleSize))
      && |r.sampleData| <= SampleSize
      && (r.successful ==> r.quality == Some(DataQuality(true, HasNullValues(r.sampleData), |r.sampleData|)))
  {
    if host.fields.Some? {
      FieldInfoMapKeys(host.fields.value);
    }
    SampleOfSpec(host.fields, host.cursor, SampleSize);
  }

  /**
   * `process_layer_basic(layer, progress_callback)`: fills the results step by
   * step; `progress` lists the percentages passed to the callback.
   */
  method ProcessLayerBasic(path: string, host: LayerHost) returns (results: LayerResults, progress: seq<nat>)
    ensures results == BasicResults(path, host)
    ensures progress == if Accessible(host) then ProgressSteps else [5]
  {
    results := InitialResults(path);
    progress := [5];
    if !Accessible(host) {
      return;
    }
    progress := progress + [15];
    var info := GetFieldInfo(host.fields);
    results := results.(fieldCount := |info|, fieldInfo := Some(info));
    progress := progress + [35];
    var count := if host.count.Some? then host.count.value else 0;
    results := results.(featureCount := count);
    progress := progress + [60];
    var sample := ReadSampleFeatures(host.fields, host.cursor, SampleSize);
    results := results.(sampleData := sample);
    progress := progress + [80];
    var quality := DataQuality(true, AnyNull(sample), |sample|);
    results := results.(quality := Some(quality));
    progress := progress + [100];
    results := results.(successful := true);
  }
}
