/**
 * The IMPORT_FIELDS catalog (Norwegian forest-resource fields grouped by
 * category) and the validators that check a layer against it:
 * `validate_import_fields`, `validate_import_fields_detailed` and
 * `get_phase2_validation_info`.
 */
module ImportFields {
  import opened Wrappers
  import opened Text
  import opened Seqs

  datatype Category = Category(name: string, fields: seq<string>)

  /** `IMPORT_FIELDS`, in its declaration order. */
  const Catalog: seq<Category> := [
    AgeData, SpeciesType, Biomass, Volume, Height,
    SiteIndex, Diameter, BasalArea, TreeDensity, LeafAreaIndex,
    CrownCoverage, Elevation, SoilProperties, Location ]

  const AgeData := Category("Age Data", ["srrhogstaar", "srrtrealder", "srrtrealder_l", "srrtrealder_u"])
  const SpeciesType := Category("Species Type", ["srrtreslag"])
  const Biomass := Category("Biomass", ["srrbmo", "srrbmo_l", "srrbmo_u", "srrbmu", "srrbmu_l", "srrbmu_u"])
  const Volume := Category("Volume", ["srrvolmb", "srrvolmb_l", "srrvolmb_u", "srrvolub", "srrvolub_l", "srrvolub_u"])
  const Height := Category("Height", ["srrmhoyde", "srrmhoyde_l", "srrmhoyde_u", "srrohoyde", "srrohoyde_l", "srrohoyde_u"])
  const SiteIndex := Category("Site Index", ["srrbonitet"])
  const Diameter := Category("Diameter", ["srrdiammiddel", "srrdiammiddel_l", "srrdiammiddel_u", "srrdiammiddel_ge8", "srrdiammiddel_ge8_l", "srrdiammiddel_ge8_u"])
  const BasalArea := Category("Basal Area", ["srrgrflate", "srrgrflate_l", "srrgrflate_u"])
  const TreeDensity := Category("Tree Density", ["srrtreantall", "srrtreantall_l", "srrtreantall_u", "srrtreantall_ge8", "srrtreantall_ge8_l", "srrtreantall_ge8_u", "srrtreantall_ge10", "srrtreantall_ge10_l", "srrtreantall_ge10_u", "srrtreantall_ge16", "srrtreantall_ge16_l", "srrtreantall_ge16_u"])
  const LeafAreaIndex := Category("Leaf Area Index", ["srrlai", "srrlai_l", "srrlai_u"])
  const CrownCoverage := Category("Crown Coverage", ["srrkronedek"])
  const Elevation := Category("Elevation", ["elev_min", "elev_mean", "elev_max"])
  const SoilProperties := Category("Soil Properties", ["markfukt", "artype", "argrunnf"])
  const Location := Category("Location", ["loc_long", "loc_lat"])

  const CriticalFields: seq<string> := ["srrtreslag", "srrbmo", "srrmhoyde", "srrvolmb"]

  /** `[field for fields in IMPORT_FIELDS.values() for field in fields]`. */
  function AllFields(cats: seq<Category>): seq<string>
  {
    if cats == [] then [] else AllFields(cats[..|cats| - 1]) + cats[|cats| - 1].fields
  }

  /** `list(IMPORT_FIELDS.keys())`. */
  function CategoryNames(cats: seq<Category>): (names: seq<string>)
    ensures |names| == |cats|
    ensures forall i :: 0 <= i < |cats| ==> names[i] == cats[i].name
  {
    seq(|cats|, i requires 0 <= i < |cats| => cats[i].name)
  }

  /** Appending a category appends its fields. */
  lemma AllFieldsSnoc(cats: seq<Category>, c: Category)
    ensures AllFields(cats + [c]) == AllFields(cats) + c.fields
  {
    assert (cats + [c])[..|cats|] == cats;
  }

  /** The catalog has 14 categories holding 57 fields. */
  lemma CatalogSize()
    ensures |Catalog| == 14 && |AllFields(Catalog)| == 57
  {
    var c: seq<Category> := [];
    assert AllFields(c) == [];
    AllFieldsSnoc(c, AgeData); c := c + [AgeData];
    AllFieldsSnoc(c, SpeciesType); c := c + [SpeciesType];
    AllFieldsSnoc(c, Biomass); c := c + [Biomass];
    AllFieldsSnoc(c, Volume); c := c + [Volume];
    AllFieldsSnoc(c, Height); c := c + [Height];
    AllFieldsSnoc(c, SiteIndex); c := c + [SiteIndex];
    AllFieldsSnoc(c, Diameter); c := c + [Diameter];
    AllFieldsSnoc(c, BasalArea); c := c + [BasalArea];
    AllFieldsSnoc(c, TreeDensity); c := c + [TreeDensity];
    AllFieldsSnoc(c, LeafAreaIndex); c := c + [LeafAreaIndex];
    AllFieldsSnoc(c, CrownCoverage); c := c + [CrownCoverage];
    AllFieldsSnoc(c, Elevation); c := c + [Elevation];
    AllFieldsSnoc(c, SoilProperties); c := c + [SoilProperties];
    AllFieldsSnoc(c, Location); c := c + [Location];
    assert c == Catalog;
  }

  /** A field listed in the `i`-th category is among all the fields. */
  lemma {:induction false} AllFieldsHas(cats: seq<Category>, i: nat, f: string)
    requires i < |cats| && f in cats[i].fields
    ensures f in AllFields(cats)
  {
    var n := |cats|;
    if i < n - 1 {
      assert cats[..n - 1][i] == cats[i];
      AllFieldsHas(cats[..n - 1], i, f);
    }
  }

  /** Every critical field belongs to some category of the catalog. */
  lemma CriticalFieldsCatalogued()
    ensures forall f :: f in CriticalFields ==> f in AllFields(Catalog)
  {
    assert Catalog[1] == SpeciesType && Catalog[2] == Biomass && Catalog[3] == Volume && Catalog[4] == Height;
    AllFieldsHas(Catalog, 1, "srrtreslag");
    AllFieldsHas(Catalog, 2, "srrbmo");
    AllFieldsHas(Catalog, 3, "srrvolmb");
    AllFieldsHas(Catalog, 4, "srrmhoyde");
  }

  /** The dictionary `validate_import_fields` returns. */
  datatype ImportCheck = ImportCheck(
    totalFields: nat, foundFields: nat, missingFields: seq<string>,
    layersChecked: nat, passed: bool)

  /**
   * `validate_import_fields(layer_names)`: no field is checked; an absent or empty
   * list fails and reports every category as missing.
   */
  function ValidateImportFields(layerNames: Option<seq<string>>): (r: ImportCheck)
    ensures r.totalFields == 57 && r.foundFields == 0
    ensures r.passed <==> layerNames.Some? && layerNames.value != []
    ensures r.passed ==> r.layersChecked == |layerNames.value| && r.missingFields == []
    ensures !r.passed ==> r.layersChecked == 0 && r.missingFields == CategoryNames(Catalog)
    ensures |r.missingFields| == if r.passed then 0 else 14
  {
    CatalogSize();
    var total := |AllFields(Catalog)|;
    if layerNames.None? || layerNames.value == [] then
      ImportCheck(total, 0, CategoryNames(Catalog), 0, false)
    else
      ImportCheck(total, 0, [], |layerNames.value|, true)
  }

  /**
   * `[f.name.lower() for f in arcpy.ListFields(output_layer)]`, where `None` stands
   * for a layer that does not exist or whose fields cannot be listed.
   */
  function ExistingFields(layerFields: Option<seq<string>>): (r: seq<string>)
    ensures layerFields.None? ==> r == []
    ensures layerFields.Some? ==> |r| == |layerFields.value|
    ensures layerFields.Some? ==> forall i :: 0 <= i < |r| ==> r[i] == Lower(layerFields.value[i])
  {
    match layerFields
    case None => []
    case Some(names) => seq(|names|, i requires 0 <= i < |names| => Lower(names[i]))
  }

  /**
   * A catalog field counts as present exactly when the layer has a field of the
   * same name up to letter case; a layer that does not exist or cannot be listed
   * has none.
   */
  lemma FoundIgnoringCase(layerFields: Option<seq<string>>, f: string)
    ensures layerFields.None? ==> !Present(ExistingFields(layerFields))(f)
    ensures layerFields.Some? ==>
      (Present(ExistingFields(layerFields))(f) <==> exists g :: g in layerFields.value && Lower(g) == Lower(f))
  {
    if layerFields.Some? {
      var names, existing := layerFields.value, ExistingFields(layerFields);
      if Lower(f) in existing {
        var i :| 0 <= i < |existing| && existing[i] == Lower(f);
        assert names[i] in names && Lower(names[i]) == Lower(f);
      }
      if g :| g in names && Lower(g) == Lower(f) {
        var j :| 0 <= j < |names| && names[j] == g;
        assert existing[j] == Lower(f);
      }
    }
  }

  /** `field.lower() in existing_fields`. */
  function Present(existing: seq<string>): string -> bool
  {
    f => Lower(f) in existing
  }

  /** A category at least one of whose fields is present. */
  function CategoryHit(existing: seq<string>): Category -> bool
  {
    (c: Category) => Filter(c.fields, Present(existing)) != []
  }

  /** The dictionary `validate_import_fields_detailed` returns when it does not raise. */
  datatype DetailedReport = DetailedReport(
    totalFields: nat, foundFields: nat, missingFields: seq<string>,
    categoriesValidated: nat, passed: bool,
    criticalFound: seq<string>, criticalMissing: seq<string>)

  const NoLayerMessage := "No output layer specified for validation"
  const CriticalMissingPrefix := "IMPORT_FIELDS validation failed - Missing critical fields: "

  /**
   * The inner loop of `validate_import_fields_detailed` over one category's
   * fields: the running count grows by the fields present and the running list of
   * missing fields is extended by the others, in order.
   */
  method TallyFields(fields: seq<string>, existing: seq<string>, found0: nat, missing0: seq<string>)
    returns (found: nat, missing: seq<string>, categoryFound: nat)
    ensures categoryFound == |Filter(fields, Present(existing))|
    ensures found == found0 + categoryFound
    ensures missing == missing0 + Filter(fields, Not(Present(existing)))
  {
    var present := Present(existing);
    found, missing, categoryFound := found0, missing0, 0;
    var j := 0;
    while j < |fields|
      invariant 0 <= j <= |fields|
      invariant categoryFound == |Filter(fields[..j], present)|
      invariant found == found0 + categoryFound
      invariant missing == missing0 + Filter(fields[..j], Not(present))
    {
      var field := fields[j];
      assert fields[..j + 1] == fields[..j] + [field];
      FilterSnoc(fields[..j], field, present);
      FilterSnoc(fields[..j], field, Not(present));
      if Lower(field) in existing {
        found := found + 1;
        categoryFound := categoryFound + 1;
      } else {
        missing := missing + [field];
      }
      j := j + 1;
    }
    assert fields[..j] == fields;
  }

  /** What one more category adds to the tallies over a prefix of the catalog. */
  lemma TallyStep(cats: seq<Category>, i: nat, existing: seq<string>)
    requires i < |cats|
    ensures |Filter(AllFields(cats[..i + 1]), Present(existing))|
      == |Filter(AllFields(cats[..i]), Present(existing))| + |Filter(cats[i].fields, Present(existing))|
    ensures Filter(AllFields(cats[..i + 1]), Not(Present(existing)))
      == Filter(AllFields(cats[..i]), Not(Present(existing))) + Filter(cats[i].fields, Not(Present(existing)))
    ensures Filter(cats[..i + 1], CategoryHit(existing))
      == Filter(cats[..i], CategoryHit(existing)) + (if CategoryHit(existing)(cats[i]) then [cats[i]] else [])
  {
    assert cats[..i + 1] == cats[..i] + [cats[i]];
    AllFieldsSnoc(cats[..i], cats[i]);
    FilterConcat(AllFields(cats[..i]), cats[i].fields, Present(existing));
    FilterConcat(AllFields(cats[..i]), cats[i].fields, Not(Present(existing)));
    FilterSnoc(cats[..i], cats[i], CategoryHit(existing));
  }

  /**
   * The category loop of `validate_import_fields_detailed`: the fields present, in
   * catalog order, are counted, the others collected, and every category with a
   * field present is counted.
   */
  method TallyCategories(cats: seq<Category>, existing: seq<string>)
    returns (found: nat, missing: seq<string>, categoriesValidated: nat)
    ensures found == |Filter(AllFields(cats), Present(existing))|
    ensures missing == Filter(AllFields(cats), Not(Present(existing)))
    ensures categoriesValidated == |Filter(cats, CategoryHit(existing))|
  {
    var present := Present(existing);
    found, missing, categoriesValidated := 0, [], 0;
    var i := 0;
    while i < |cats|
      invariant 0 <= i <= |cats|
      invariant found == |Filter(AllFields(cats[..i]), present)|
      invariant missing == Filter(AllFields(cats[..i]), Not(present))
      invariant categoriesValidated == |Filter(cats[..i], CategoryHit(existing))|
    {
      var fields := cats[i].fields;
      var categoryFound;
      found, missing, categoryFound := TallyFields(fields, existing, found, missing);
      TallyStep(cats, i, existing);
      if categoryFound > 0 {
        categoriesValidated := categoriesValidated + 1;
      }
      i := i + 1;
    }
    assert cats[..i] == cats;
  }

  /**
   * The critical-field loop of `validate_import_fields_detailed`: the names are
   * split, in order, into those present and those missing.
   */
  method SplitByPresence(names: seq<string>, existing: seq<string>)
    returns (found: seq<string>, missing: seq<string>)
    ensures found == Filter(names, Present(existing))
    ensures missing == Filter(names, Not(Present(existing)))
  {
    var present := Present(existing);
    found, missing := [], [];
    var k := 0;
    while k < |names|
      invariant 0 <= k <= |names|
      invariant found == Filter(names[..k], present)
      invariant missing == Filter(names[..k], Not(present))
    {
      var field := names[k];
      assert names[..k + 1] == names[..k] + [field];
      FilterSnoc(names[..k], field, present);
      FilterSnoc(names[..k], field, Not(present));
      if Lower(field) in existing {
        found := found + [field];
      } else {
        missing := missing + [field];
      }
      k := k + 1;
    }
    assert names[..k] == names;
  }

  /**
   * `validate_import_fields_detailed(output_layer)`, with the layer's field names
   * (or `None` when it does not exist or cannot be listed) as a parameter. The
   * catalog fields are split into present and missing, and the critical fields
   * likewise; it succeeds exactly when at least two critical fields are present
   * and otherwise raises naming the missing ones.
   */
  method ValidateImportFieldsDetailed(outputLayer: Option<string>, layerFields: Option<seq<string>>)
    returns (r: Result<DetailedReport>)
    ensures outputLayer.None? ==> r == Err(Exception(NoLayerMessage))
    ensures outputLayer.Some? ==>
      var present := Present(ExistingFields(layerFields));
      (r.Ok? <==> |Filter(CriticalFields, present)| >= 2) &&
      (r.Err? ==> r.error == Exception(CriticalMissingPrefix + Join(Filter(CriticalFields, Not(present)), ", ")))
    ensures r.Ok? ==>
      var present := Present(ExistingFields(layerFields));
      var rep := r.value;
      && rep.passed && rep.totalFields == 57
      && rep.foundFields == |Filter(AllFields(Catalog), present)|
      && rep.missingFields == Filter(AllFields(Catalog), Not(present))
      && rep.foundFields + |rep.missingFields| == rep.totalFields
      && rep.categoriesValidated == |Filter(Catalog, CategoryHit(ExistingFields(layerFields)))|
      && rep.criticalFound == Filter(CriticalFields, present)
      && rep.criticalMissing == Filter(CriticalFields, Not(present))
  {
    if outputLayer.None? {
      return Err(Exception(NoLayerMessage));
    }
    var existing := ExistingFields(layerFields);
    var present := Present(existing);
    var total := |AllFields(Catalog)|;
    var found, missing, categoriesValidated := TallyCategories(Catalog, existing);

    var criticalFound, criticalMissing := SplitByPresence(CriticalFields, existing);

    if |criticalFound| >= 2 {
      CatalogSize();
      FilterPartition(AllFields(Catalog), present);
      r := Ok(DetailedReport(total, found, missing, categoriesValidated, true, criticalFound, criticalMissing));
    } else {
      r := Err(Exception(CriticalMissingPrefix + Join(criticalMissing, ", ")));
    }
  }

  /** The critical fields found and missing together are exactly the four critical fields. */
  lemma CriticalSplit(existing: seq<string>)
    ensures multiset(Filter(CriticalFields, Present(existing))) + multiset(Filter(CriticalFields, Not(Present(existing))))
      == multiset(CriticalFields)
    ensures |Filter(CriticalFields, Present(existing))| + |Filter(CriticalFields, Not(Present(existing)))| == 4
  {
    FilterPartition(CriticalFields, Present(existing));
  }

  /** When every name is present, nothing is filtered out and nothing is missing. */
  lemma AllPresent(names: seq<string>, existing: seq<string>)
    requires forall f :: f in names ==> Lower(f) in existing
    ensures Filter(names, Present(existing)) == names
    ensures Filter(names, Not(Present(existing))) == []
  {
    FilterAll(names, Present(existing));
    FilterPartition(names, Present(existing));
  }

  /** A layer carrying every catalog field passes with all 57 found, nothing missing and all four criticals. */
  lemma CompleteLayerPasses(existing: seq<string>)
    requires forall f :: f in AllFields(Catalog) ==> Lower(f) in existing
    ensures Filter(CriticalFields, Present(existing)) == CriticalFields
    ensures |Filter(AllFields(Catalog), Present(existing))| == 57
    ensures Filter(AllFields(Catalog), Not(Present(existing))) == []
  {
    CatalogSize();
    CriticalFieldsCatalogued();
    AllPresent(CriticalFields, existing);
    AllPresent(AllFields(Catalog), existing);
  }

  /** The dictionary `get_phase2_validation_info` returns. */
  datatype Phase2Info = Phase2Info(
    fieldCategories: seq<string>, totalFields: nat,
    validationFocus: string, criticalFields: seq<string>)

  /** `get_phase2_validation_info()`: the 14 category names, 57 fields, and four critical fields drawn from the catalog. */
  function GetPhase2ValidationInfo(): (info: Phase2Info)
    ensures info.fieldCategories == CategoryNames(Catalog) && |info.fieldCategories| == 14
    ensures info.totalFields == 57
    ensures |info.criticalFields| == 4
    ensures forall f :: f in info.criticalFields ==> f in AllFields(Catalog)
  {
    CatalogSize();
    CriticalFieldsCatalogued();
    Phase2Info(CategoryNames(Catalog), |AllFields(Catalog)|,
      "Norwegian forest data compatibility", CriticalFields)
  }
}
