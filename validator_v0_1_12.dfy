/**
 * The v0.1.12 tool validator: no caching, both dropdowns default to their
 * second entry, and `updateParameters` only refreshes the lists.
 * `updateMessages` does nothing and is not modelled.
 */
module ValidatorV0112 {
  import opened Wrappers
  import opened Host
  import opened Labels
  import opened Capabilities

  class ToolValidator {
    /** `self.params[0]`, `[1]` and `[2]` of `arcpy.GetParameterInfo()`. */
    const output: Parameter
    const threads: Parameter
    const memory: Parameter

    constructor (output: Parameter, threads: Parameter, memory: Parameter)
      requires Distinct3(output, threads, memory)
      ensures this.output == output && this.threads == threads && this.memory == memory
    {
      this.output := output;
      this.threads := threads;
      this.memory := memory;
    }

    /**
     * Installs the thread and memory labels for the probed machine with the second
     * entry ("Moderate", "60%") selected, then lists the map's feature layers.
     */
    method InitializeParameters(cores: CoreProbe, mem: MemoryProbe, activeMap: Option<seq<MapLayer>>)
      requires Distinct3(output, threads, memory)
      modifies output`filter, output`value, threads`filter, threads`value, memory`filter, memory`value
      ensures threads.filter == ThreadLabels(DetectedCores(cores)) && threads.value == threads.filter[1]
      ensures memory.filter == MemoryLabels(DetectedMemoryGb(mem)) && memory.value == memory.filter[1]
      ensures activeMap.Some? && FeatureLayerNames(activeMap.value) != [] ==>
        output.filter == FeatureLayerNames(activeMap.value)
        && output.value == (if old(output.value) == "" then output.filter[0] else old(output.value))
      ensures !(activeMap.Some? && FeatureLayerNames(activeMap.value) != []) ==>
        output.filter == old(output.filter) && output.value == old(output.value)
    {
      threads.filter := ThreadLabels(DetectedCores(cores));
      threads.value := threads.filter[1];
      memory.filter := MemoryLabels(DetectedMemoryGb(mem));
      memory.value := memory.filter[1];
      PopulateOutputLayer(output, activeMap);
    }

    /**
     * Recomputes the thread and memory lists and, with an active map, the output
     * layer list. No value is touched: the frame admits only the lists.
     */
    method UpdateParameters(cores: CoreProbe, mem: MemoryProbe, activeMap: Option<seq<MapLayer>>)
      requires Distinct3(output, threads, memory)
      modifies output`filter, threads`filter, memory`filter
      ensures threads.filter == ThreadLabels(DetectedCores(cores))
      ensures memory.filter == MemoryLabels(DetectedMemoryGb(mem))
      ensures output.filter == if activeMap.Some? then FeatureLayerNames(activeMap.value) else old(output.filter)
    {
      threads.filter := ThreadLabels(DetectedCores(cores));
      memory.filter := MemoryLabels(DetectedMemoryGb(mem));
      RefreshOutputLayer(output, activeMap);
    }
  }

  /**
   * A refresh with the same probe results reinstalls the lists of the
   * initialisation and leaves the selections alone, so they stay in their lists.
   */
  method InitializeThenUpdate(v: ToolValidator, cores: CoreProbe, mem: MemoryProbe, activeMap: Option<seq<MapLayer>>)
    requires Distinct3(v.output, v.threads, v.memory)
    modifies v.output`filter, v.output`value, v.threads`filter, v.threads`value, v.memory`filter, v.memory`value
    ensures v.threads.value in v.threads.filter && v.memory.value in v.memory.filter
    ensures v.threads.value == ThreadLabels(DetectedCores(cores))[1]
    ensures v.memory.value == MemoryLabels(DetectedMemoryGb(mem))[1]
  {
    v.InitializeParameters(cores, mem, activeMap);
    v.UpdateParameters(cores, mem, activeMap);
  }
}
