/**
 * Readers of the parsed IMPORT_FIELDS.json document (toolbox v0.2.1):
 * `get_required_input_datasets` and `get_dataset_field_mapping`. The document
 * is passed in as a value; reading the file is not part of this model.
 */
module CatalogReaders {
  import opened Wrappers
  import opened Text
  import opened JsonValue

  const MissingSummary := "Missing 'summary' section in IMPORT_FIELDS.json"
  const MissingRequired := "Missing 'input_datasets_required' in IMPORT_FIELDS.json summary"
  const NotNonEmptyList := "'input_datasets_required' must be a non-empty list"
  const MissingInputDatasets := "Missing 'input_datasets' section in IMPORT_FIELDS.json"
  const MissingFieldCategories := "Missing 'field_categories' section in IMPORT_FIELDS.json"

  /** The message of the KeyError for a category that names a dataset but has no "fields". */
  function MissingFieldsMessage(category: string): string
  {
    "Missing 'fields' in category '" + category + "'"
  }

  /** `doc["summary"]["input_datasets_required"]` is `v`, both levels being objects. */
  predicate RequiredEntry(doc: Json, v: Json)
  {
    && doc.JObj?
    && Lookup(doc.entries, "summary").Some?
    && Lookup(doc.entries, "summary").value.JObj?
    && Lookup(Lookup(doc.entries, "summary").value.entries, "input_datasets_required") == Some(v)
  }

  /**
   * `get_required_input_datasets()`: the non-empty list stored under
   * summary.input_datasets_required, returned unchanged; KeyError when either key
   * is absent, ValueError when the value is not a non-empty list.
   */
  function GetRequiredInputDatasets(doc: Json): (r: Result<seq<Json>>)
    ensures r.Ok? ==> RequiredEntry(doc, JArr(r.value)) && r.value != []
    ensures forall xs :: RequiredEntry(doc, JArr(xs)) && xs != [] ==> r == Ok(xs)
    ensures forall v :: RequiredEntry(doc, v) && (!v.JArr? || v.items == []) ==> r == Err(ValueError(NotNonEmptyList))
    ensures doc.JObj? && Lookup(doc.entries, "summary").None? ==> r == Err(KeyError(MissingSummary))
    ensures doc.JObj? && Lookup(doc.entries, "summary").Some? && Lookup(doc.entries, "summary").value.JObj?
      && Lookup(Lookup(doc.entries, "summary").value.entries, "input_datasets_required").None?
      ==> r == Err(KeyError(MissingRequired))
  {
    var hasSummary :- In("summary", doc);
    if !hasSummary then Err(KeyError(MissingSummary))
    else
      var summary :- Index(doc, "summary");
      var hasRequired :- In("input_datasets_required", summary);
      if !hasRequired then Err(KeyError(MissingRequired))
      else
        var required :- Index(summary, "input_datasets_required");
        if !required.JArr? || required.items == [] then Err(ValueError(NotNonEmptyList))
        else Ok(required.items)
  }

  /** One value of the dictionary `get_dataset_field_mapping` returns. */
  datatype DatasetInfo = DatasetInfo(
    description: Json, kind: Json, fieldCount: Json, categories: Json, fields: seq<string>)

  /**
   * The entry built for one dataset of `input_datasets`: its description, type,
   * field count and categories, each defaulting to "", "", 0 and [] when absent,
   * and no fields yet. A dataset value that is not an object has no `.get`.
   */
  function NewDatasetInfo(info: Json): (r: Result<DatasetInfo>)
    ensures r.Ok? <==> info.JObj?
    ensures r.Ok? ==> r.value.fields == []
    ensures r.Ok? ==>
      && (Lookup(info.entries, "description").None? ==> r.value.description == JStr(""))
      && (Lookup(info.entries, "type").None? ==> r.value.kind == JStr(""))
      && (Lookup(info.entries, "field_count").None? ==> r.value.fieldCount == JNum(0))
      && (Lookup(info.entries, "categories").None? ==> r.value.categories == JArr([]))
    ensures r.Ok? ==>
      && (Lookup(info.entries, "description").Some? ==> Some(r.value.description) == Lookup(info.entries, "description"))
      && (Lookup(info.entries, "type").Some? ==> Some(r.value.kind) == Lookup(info.entries, "type"))
      && (Lookup(info.entries, "field_count").Some? ==> Some(r.value.fieldCount) == Lookup(info.entries, "field_count"))
      && (Lookup(info.entries, "categories").Some? ==> Some(r.value.categories) == Lookup(info.entries, "categories"))
    ensures r.Err? ==> r.error == AttributeError
  {
    match info
    case JObj(entries) =>
      Ok(DatasetInfo(
        GetOr(entries, "description", JStr("")), GetOr(entries, "type", JStr("")),
        GetOr(entries, "field_count", JNum(0)), GetOr(entries, "categories", JArr([])), []))
    case _ => Err(AttributeError)
  }

  /** The first loop of `get_dataset_field_mapping`, over `input_datasets.items()`. */
  function BaseMapping(datasets: seq<(string, Json)>): Result<map<string, DatasetInfo>>
  {
    if datasets == [] then Ok(map[])
    else
      var m :- BaseMapping(datasets[..|datasets| - 1]);
      var entry :- NewDatasetInfo(datasets[|datasets| - 1].1);
      Ok(m[datasets[|datasets| - 1].0 := entry])
  }

  /**
   * One step of the second loop: a category whose "dataset" is a known dataset
   * appends the keys of its "fields" object to that dataset's fields.
   */
  function AddCategory(m: map<string, DatasetInfo>, name: string, info: Json): (r: Result<map<string, DatasetInfo>>)
    ensures !info.JObj? ==> r == Err(AttributeError)
    ensures (info.JObj? && GetOr(info.entries, "dataset", JNull).JStr?
      && GetOr(info.entries, "dataset", JNull).s in m && Lookup(info.entries, "fields").None?)
      ==> r == Err(KeyError(MissingFieldsMessage(name)))
    ensures (info.JObj? && GetOr(info.entries, "dataset", JNull).JStr?
      && GetOr(info.entries, "dataset", JNull).s !in m) ==> r == Ok(m)
  {
    match info
    case JObj(entries) =>
      (match GetOr(entries, "dataset", JNull)
       case JStr(d) =>
         if d !in m then Ok(m)
         else
           (match Lookup(entries, "fields")
            case None => Err(KeyError(MissingFieldsMessage(name)))
            case Some(JObj(fieldEntries)) => Ok(m[d := m[d].(fields := m[d].fields + Keys(fieldEntries))])
            case Some(_) => Err(AttributeError))
       case JArr(_) => Err(TypeError)
       case JObj(_) => Err(TypeError)
       case _ => Ok(m))
    case _ => Err(AttributeError)
  }

  /** The second loop of `get_dataset_field_mapping`, over `field_categories.items()`. */
  function AddCategories(m: map<string, DatasetInfo>, categories: seq<(string, Json)>): Result<map<string, DatasetInfo>>
  {
    if categories == [] then Ok(m)
    else
      var m' :- AddCategories(m, categories[..|categories| - 1]);
      AddCategory(m', categories[|categories| - 1].0, categories[|categories| - 1].1)
  }

  /** `get_dataset_field_mapping()` on the parsed document. */
  function DatasetFieldMapping(doc: Json): Result<map<string, DatasetInfo>>
  {
    var hasDatasets :- In("input_datasets", doc);
    if !hasDatasets then Err(KeyError(MissingInputDatasets))
    else
      if !In("field_categories", doc).value then Err(KeyError(MissingFieldCategories))
      else
        var datasets :- Index(doc, "input_datasets");
        if !datasets.JObj? then Err(AttributeError)
        else
          var base :- BaseMapping(datasets.entries);
          var categories := Index(doc, "field_categories").value;
          if !categories.JObj? then Err(AttributeError)
          else AddCategories(base, categories.entries)
  }

  /**
   * The reference reading of a dataset's field list: the keys of the "fields"
   * objects of the categories whose "dataset" is `d`, concatenated in category order.
   */
  function FieldsFor(categories: seq<(string, Json)>, d: string): seq<string>
  {
    if categories == [] then []
    else
      FieldsFor(categories[..|categories| - 1], d) + Contribution(categories[|categories| - 1].1, d)
  }

  /** The field keys one category contributes to dataset `d`: none unless it names `d`. */
  function Contribution(info: Json, d: string): seq<string>
  {
    if info.JObj? && GetOr(info.entries, "dataset", JNull) == JStr(d)
       && Lookup(info.entries, "fields").Some? && Lookup(info.entries, "fields").value.JObj?
    then Keys(Lookup(info.entries, "fields").value.entries)
    else []
  }

  /** One successful category step keeps the keys and appends its contribution to each dataset. */
  lemma AddCategoryShape(m: map<string, DatasetInfo>, name: string, info: Json)
    requires AddCategory(m, name, info).Ok?
    ensures AddCategory(m, name, info).value.Keys == m.Keys
    ensures forall d :: d in m ==>
      AddCategory(m, name, info).value[d] == m[d].(fields := m[d].fields + Contribution(info, d))
  {
  }

  /** The first loop keys the mapping by the dataset names, each with the defaults of `NewDatasetInfo`. */
  lemma {:induction false} BaseMappingShape(datasets: seq<(string, Json)>)
    requires BaseMapping(datasets).Ok?
    ensures forall d :: d in BaseMapping(datasets).value <==> Lookup(datasets, d).Some?
    ensures forall d :: d in BaseMapping(datasets).value ==>
      NewDatasetInfo(Lookup(datasets, d).value) == Ok(BaseMapping(datasets).value[d])
  {
    if datasets != [] {
      BaseMappingShape(datasets[..|datasets| - 1]);
    }
  }

  /** Appending `xs` and then `ys` to a dataset's fields appends `xs + ys`. */
  lemma AppendedTwice(d0: DatasetInfo, d1: DatasetInfo, d2: DatasetInfo, xs: seq<string>, ys: seq<string>)
    requires d1 == d0.(fields := d0.fields + xs) && d2 == d1.(fields := d1.fields + ys)
    ensures d2 == d0.(fields := d0.fields + (xs + ys))
  {
    assert (d0.fields + xs) + ys == d0.fields + (xs + ys);
  }

  /**
   * The second loop leaves the keys alone and appends to each dataset exactly the
   * fields `FieldsFor` collects for it.
   */
  lemma {:induction false} AddCategoriesShape(m: map<string, DatasetInfo>, categories: seq<(string, Json)>)
    requires AddCategories(m, categories).Ok?
    ensures AddCategories(m, categories).value.Keys == m.Keys
    ensures forall d :: d in m ==>
      AddCategories(m, categories).value[d] == m[d].(fields := m[d].fields + FieldsFor(categories, d))
  {
    if categories != [] {
      var n := |categories|;
      var prefix := categories[..n - 1];
      AddCategoriesShape(m, prefix);
      var m' := AddCategories(m, prefix).value;
      var info := categories[n - 1].1;
      AddCategoryShape(m', categories[n - 1].0, info);
      var r := AddCategories(m, categories).value;
      assert r == AddCategory(m', categories[n - 1].0, info).value;
      forall d | d in m
        ensures r[d] == m[d].(fields := m[d].fields + FieldsFor(categories, d))
      {
        AppendedTwice(m[d], m'[d], r[d], FieldsFor(prefix, d), Contribution(info, d));
      }
    }
  }

  /**
   * `get_dataset_field_mapping` on a successful read: the keys are exactly the
   * `input_datasets` keys, each dataset keeps the attributes (or defaults) of its
   * own entry, and its fields are those the categories naming it list, in order.
   * Categories naming an unknown dataset contribute nothing.
   */
  lemma DatasetFieldMappingShape(doc: Json)
    requires DatasetFieldMapping(doc).Ok?
    ensures doc.JObj?
    ensures Lookup(doc.entries, "input_datasets").Some? && Lookup(doc.entries, "input_datasets").value.JObj?
    ensures Lookup(doc.entries, "field_categories").Some? && Lookup(doc.entries, "field_categories").value.JObj?
    ensures var datasets := Lookup(doc.entries, "input_datasets").value.entries;
      var categories := Lookup(doc.entries, "field_categories").value.entries;
      var m := DatasetFieldMapping(doc).value;
      && (forall d :: d in m <==> Lookup(datasets, d).Some?)
      && forall d :: d in m ==>
        && NewDatasetInfo(Lookup(datasets, d).value) == Ok(m[d].(fields := []))
        && m[d].fields == FieldsFor(categories, d)
  {
    var datasets := Lookup(doc.entries, "input_datasets").value.entries;
    var categories := Lookup(doc.entries, "field_categories").value.entries;
    BaseMappingShape(datasets);
    var base := BaseMapping(datasets).value;
    AddCategoriesShape(base, categories);
  }

  /**
   * `get_dataset_field_mapping()`, written as its two loops over the entries of
   * `input_datasets` and `field_categories`.
   */
  method GetDatasetFieldMapping(doc: Json) returns (r: Result<map<string, DatasetInfo>>)
    requires Parsed(doc)
    ensures r == DatasetFieldMapping(doc)
  {
    var hasDatasets :- In("input_datasets", doc);
    if !hasDatasets {
      return Err(KeyError(MissingInputDatasets));
    }
    if !In("field_categories", doc).value {
      return Err(KeyError(MissingFieldCategories));
    }
    var datasets :- Index(doc, "input_datasets");
    if !datasets.JObj? {
      return Err(AttributeError);
    }
    var mapping: map<string, DatasetInfo> := map[];
    var i := 0;
    while i < |datasets.entries|
      invariant 0 <= i <= |datasets.entries|
      invariant BaseMapping(datasets.entries[..i]) == Ok(mapping)
    {
      var (name, info) := datasets.entries[i];
      assert datasets.entries[..i + 1][..i] == datasets.entries[..i];
      var entry := NewDatasetInfo(info);
      if entry.Err? {
        assert BaseMapping(datasets.entries) == Err(AttributeError) by {
          BaseMappingStops(datasets.entries, i);
        }
        return Err(entry.error);
      }
      mapping := mapping[name := entry.value];
      i := i + 1;
    }
    assert datasets.entries[..i] == datasets.entries;

    var categories := Index(doc, "field_categories").value;
    if !categories.JObj? {
      return Err(AttributeError);
    }
    var j := 0;
    while j < |categories.entries|
      invariant 0 <= j <= |categories.entries|
      invariant AddCategories(BaseMapping(datasets.entries).value, categories.entries[..j]) == Ok(mapping)
    {
      var (name, info) := categories.entries[j];
      assert categories.entries[..j + 1][..j] == categories.entries[..j];
      var next := AddCategory(mapping, name, info);
      if next.Err? {
        assert AddCategories(BaseMapping(datasets.entries).value, categories.entries) == next by {
          AddCategoriesStops(BaseMapping(datasets.entries).value, categories.entries, j);
        }
        return next;
      }
      mapping := next.value;
      j := j + 1;
    }
    assert categories.entries[..j] == categories.entries;
    return Ok(mapping);
  }

  /** A dataset entry the first loop cannot read ends the whole read with its error. */
  lemma {:induction false} BaseMappingStops(datasets: seq<(string, Json)>, i: nat)
    requires i < |datasets| && BaseMapping(datasets[..i]).Ok? && !datasets[i].1.JObj?
    ensures BaseMapping(datasets) == Err(AttributeError)
    decreases |datasets|
  {
    var n := |datasets|;
    if i == n - 1 {
      assert datasets[..n - 1] == datasets[..i];
      assert NewDatasetInfo(datasets[n - 1].1) == Err(AttributeError);
    } else {
      assert datasets[..n - 1][..i] == datasets[..i];
      BaseMappingStops(datasets[..n - 1], i);
    }
  }

  /** A category step that fails ends the second loop with its error. */
  lemma {:induction false} AddCategoriesStops(m: map<string, DatasetInfo>, categories: seq<(string, Json)>, j: nat)
    requires j < |categories| && AddCategories(m, categories[..j]).Ok?
    requires AddCategory(AddCategories(m, categories[..j]).value, categories[j].0, categories[j].1).Err?
    ensures AddCategories(m, categories)
      == AddCategory(AddCategories(m, categories[..j]).value, categories[j].0, categories[j].1)
    decreases |categories|
  {
    var n := |categories|;
    if j == n - 1 {
      assert categories[..n - 1] == categories[..j];
    } else {
      assert categories[..n - 1][..j] == categories[..j];
      AddCategoriesStops(m, categories[..n - 1], j);
    }
  }
}
