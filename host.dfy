/**
 * The pieces of the ArcGIS Pro host that the tool validators read and write:
 * a tool parameter (value, dropdown list, messages) and the layers of the
 * active map. The host itself is not modelled; its answers are inputs.
 */
module Host {
  import opened Wrappers

  /**
   * An `arcpy.Parameter`. `value` is the parameter's value as text, with "" for an
   * unset (None) or empty value, both of which the scripts treat as false;
   * `filter` is `filter.list`; `warning` and `error` record the last
   * `setWarningMessage` / `setErrorMessage`.
   */
  class Parameter {
    var value: string
    var filter: seq<string>
    var warning: Option<string>
    var error: Option<string>
    var altered: bool
    /** Whether the parameter has a (non-empty) `filter` object. */
    const hasFilter: bool

    constructor (value: string, filter: seq<string>, altered: bool, hasFilter: bool)
      ensures this.value == value && this.filter == filter && this.altered == altered && this.hasFilter == hasFilter
      ensures warning == None && error == None
    {
      this.value := value;
      this.filter := filter;
      this.altered := altered;
      this.hasFilter := hasFilter;
      warning := None;
      error := None;
    }
  }

  /** The first three parameters of a validator (output layer, threads, memory) are three distinct objects. */
  predicate Distinct3(output: Parameter, threads: Parameter, memory: Parameter)
  {
    output != threads && output != memory && threads != memory
  }

  /** A layer of the active map: its name and whether it is a feature layer. */
  datatype MapLayer = MapLayer(name: string, isFeatureLayer: bool)

  /** `[lyr.name for lyr in m.listLayers() if getattr(lyr, "isFeatureLayer", False)]`. */
  function FeatureLayerNames(layers: seq<MapLayer>): (names: seq<string>)
    ensures |names| <= |layers|
  {
    if layers == [] then []
    else
      var last := layers[|layers| - 1];
      FeatureLayerNames(layers[..|layers| - 1]) + (if last.isFeatureLayer then [last.name] else [])
  }

  /** The names listed are exactly those of the feature layers. */
  lemma {:induction false} FeatureLayerNamesExact(layers: seq<MapLayer>, name: string)
    ensures name in FeatureLayerNames(layers) <==> exists l :: l in layers && l.isFeatureLayer && l.name == name
  {
    if layers != [] {
      var n := |layers|;
      FeatureLayerNamesExact(layers[..n - 1], name);
      assert layers == layers[..n - 1] + [layers[n - 1]];
    }
  }

  /**
   * The output-layer step of `initializeParameters`: with an active map that has
   * feature layers, the dropdown lists them and an unset value becomes the first;
   * otherwise (no map, no feature layer, or the project could not be read)
   * nothing changes. `activeMap` is None when there is no active map or the host raised.
   */
  method PopulateOutputLayer(output: Parameter, activeMap: Option<seq<MapLayer>>)
    modifies output`filter, output`value
    ensures activeMap.Some? && FeatureLayerNames(activeMap.value) != [] ==>
      output.filter == FeatureLayerNames(activeMap.value)
      && output.value == (if old(output.value) == "" then output.filter[0] else old(output.value))
    ensures !(activeMap.Some? && FeatureLayerNames(activeMap.value) != []) ==>
      output.filter == old(output.filter) && output.value == old(output.value)
  {
    if activeMap.Some? {
      var names := FeatureLayerNames(activeMap.value);
      if names != [] {
        output.filter := names;
        if output.value == "" {
          output.value := names[0];
        }
      }
    }
  }

  /**
   * The output-layer step of `updateParameters`: with an active map the dropdown is
   * replaced by the feature-layer names, even when there are none; the value is kept.
   */
  method RefreshOutputLayer(output: Parameter, activeMap: Option<seq<MapLayer>>)
    modifies output`filter
    ensures output.filter == if activeMap.Some? then FeatureLayerNames(activeMap.value) else old(output.filter)
  {
    if activeMap.Some? {
      output.filter := FeatureLayerNames(activeMap.value);
    }
  }
}
