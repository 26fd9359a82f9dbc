/**
 * The v0.2.5 tool validator (the same class is embedded in toolbox v0.2.1):
 * probe results are cached on first use, the thread dropdown defaults to
 * "Auto" and memory to the 60% entry, a refresh carries each selection over to
 * the new list by tier ("sticky selection"), and an output name that does not
 * look like a validated import gets a warning.
 */
module ValidatorV025 {
  import opened Wrappers
  import opened Text
  import opened Host
  import opened Labels
  import opened Capabilities

  const OutputNameWarning := "Phase 2: This tool validates IMPORT_FIELDS compatibility. Consider output name indicating validation (e.g., '_validated', '_import_checked')"
  const OutputNameKeywords: seq<string> := ["validated", "checked", "import"]

  /** Whether `updateMessages` warns about an output name: it is set and its lower-case form has none of the keywords. */
  predicate WarnsAbout(name: string)
  {
    name != "" && !(exists k | 0 <= k < |OutputNameKeywords| :: Contains(Lower(name), OutputNameKeywords[k]))
  }

  /** The cached value, or the freshly probed one when nothing is cached yet. */
  function Cached(cache: Option<nat>, probed: nat): nat
  {
    if cache.Some? then cache.value else probed
  }

  class ToolValidator {
    const output: Parameter
    const threads: Parameter
    const memory: Parameter
    var cachedCores: Option<nat>
    var cachedMemory: Option<nat>

    ghost predicate Valid()
      reads this
    {
      Distinct3(output, threads, memory)
      && (cachedCores.Some? ==> cachedCores.value >= 1)
      && (cachedMemory.Some? ==> cachedMemory.value >= 2)
    }

    constructor (output: Parameter, threads: Parameter, memory: Parameter)
      requires Distinct3(output, threads, memory)
      ensures Valid()
      ensures this.output == output && this.threads == threads && this.memory == memory
      ensures cachedCores == None && cachedMemory == None
    {
      this.output := output;
      this.threads := threads;
      this.memory := memory;
      cachedCores := None;
      cachedMemory := None;
    }

    /** `_cpu_cores`: probes once; every later call returns the cached count whatever the probe says. */
    method CpuCores(probe: CoreProbe) returns (n: nat)
      requires Valid()
      modifies this`cachedCores
      ensures Valid() && n >= 1
      ensures cachedCores == Some(n) && n == Cached(old(cachedCores), DetectedCores(probe))
    {
      if cachedCores.None? {
        cachedCores := Some(DetectedCores(probe));
      }
      n := cachedCores.value;
    }

    /** `_avail_mem_gb`: probes once; every later call returns the cached GB whatever the probe says. */
    method AvailMemGb(probe: MemoryProbe) returns (g: nat)
      requires Valid()
      modifies this`cachedMemory
      ensures Valid() && g >= 2
      ensures cachedMemory == Some(g) && g == Cached(old(cachedMemory), DetectedMemoryGb(probe))
    {
      if cachedMemory.None? {
        cachedMemory := Some(DetectedMemoryGb(probe));
      }
      g := cachedMemory.value;
    }

    /**
     * Installs the labels for the (cached) machine figures with "Auto" and the 60%
     * entry selected, then lists the map's feature layers.
     */
    method InitializeParameters(cores: CoreProbe, mem: MemoryProbe, activeMap: Option<seq<MapLayer>>)
      requires Valid()
      modifies this`cachedCores, this`cachedMemory
      modifies output`filter, output`value, threads`filter, threads`value, memory`filter, memory`value
      ensures Valid() && cachedCores.Some? && cachedMemory.Some?
      ensures cachedCores.value == Cached(old(cachedCores), DetectedCores(cores))
      ensures cachedMemory.value == Cached(old(cachedMemory), DetectedMemoryGb(mem))
      ensures threads.filter == ThreadLabels(cachedCores.value) && threads.value == threads.filter[0]
      ensures memory.filter == MemoryLabels(cachedMemory.value) && memory.value == memory.filter[1]
      ensures activeMap.Some? && FeatureLayerNames(activeMap.value) != [] ==>
        output.filter == FeatureLayerNames(activeMap.value)
        && output.value == (if old(output.value) == "" then output.filter[0] else old(output.value))
      ensures !(activeMap.Some? && FeatureLayerNames(activeMap.value) != []) ==>
        output.filter == old(output.filter) && output.value == old(output.value)
    {
      var c := CpuCores(cores);
      threads.filter := ThreadLabels(c);
      threads.value := threads.filter[0];
      var g := AvailMemGb(mem);
      memory.filter := MemoryLabels(g);
      memory.value := memory.filter[1];
      PopulateOutputLayer(output, activeMap);
    }

    /**
     * Refreshes the lists from the cached figures and re-selects the previous
     * choices by tier; with an active map the output list is replaced too.
     */
    method UpdateParameters(cores: CoreProbe, mem: MemoryProbe, activeMap: Option<seq<MapLayer>>)
      requires Valid()
      modifies this`cachedCores, this`cachedMemory
      modifies output`filter, threads`filter, threads`value, memory`filter, memory`value
      ensures Valid() && cachedCores.Some? && cachedMemory.Some?
      ensures cachedCores.value == Cached(old(cachedCores), DetectedCores(cores))
      ensures cachedMemory.value == Cached(old(cachedMemory), DetectedMemoryGb(mem))
      ensures threads.filter == ThreadLabels(cachedCores.value)
      ensures threads.value == Sticky(old(threads.value), threads.filter, ThreadPatterns)
      ensures memory.filter == MemoryLabels(cachedMemory.value)
      ensures memory.value == Sticky(old(memory.value), memory.filter, MemoryPatterns)
      ensures output.filter == if activeMap.Some? then FeatureLayerNames(activeMap.value) else old(output.filter)
    {
      var currentThread := threads.value;
      var currentMemory := memory.value;
      var c := CpuCores(cores);
      threads.filter := ThreadLabels(c);
      var g := AvailMemGb(mem);
      memory.filter := MemoryLabels(g);
      threads.value := Sticky(currentThread, threads.filter, ThreadPatterns);
      memory.value := Sticky(currentMemory, memory.filter, MemoryPatterns);
      RefreshOutputLayer(output, activeMap);
    }

    /** Warns on the output parameter about a name that does not look validated; nothing else changes. */
    method UpdateMessages()
      modifies output`warning
      ensures output.warning == if WarnsAbout(output.value) then Some(OutputNameWarning) else old(output.warning)
    {
      if output.value != "" {
        var name := Lower(output.value);
        if !(exists k | 0 <= k < |OutputNameKeywords| :: Contains(name, OutputNameKeywords[k])) {
          output.warning := Some(OutputNameWarning);
        }
      }
    }
  }

  /** A name is judged case-insensitively: "Stand_IMPORT" passes. */
  lemma ImportNameAccepted()
    ensures !WarnsAbout("Stand_IMPORT")
  {
    assert Lower("Stand_IMPORT") == "stand_import";
    assert OccursAt(Lower("Stand_IMPORT"), OutputNameKeywords[2], 6);
  }

  /** "Stands" holds none of the keywords and is warned about; an empty name never is. */
  lemma PlainNameWarned()
    ensures WarnsAbout("Stands")
    ensures !WarnsAbout("")
  {
    var l := Lower("Stands");
    assert l == "stands";
    MissingCharExcludes(l, OutputNameKeywords[0], 'v');
    MissingCharExcludes(l, OutputNameKeywords[1], 'c');
    MissingCharExcludes(l, OutputNameKeywords[2], 'i');
  }

  /**
   * The cache makes the lifecycle consistent: once initialised, any number of
   * refreshes, whatever the probes report then, install exactly the lists of the
   * initialisation, and selections made from those lists are kept.
   */
  method RefreshesAgree(v: ToolValidator, c1: CoreProbe, m1: MemoryProbe, c2: CoreProbe, m2: MemoryProbe,
                        c3: CoreProbe, m3: MemoryProbe, activeMap: Option<seq<MapLayer>>)
    requires v.Valid()
    modifies v`cachedCores, v`cachedMemory
    modifies v.output`filter, v.output`value, v.threads`filter, v.threads`value, v.memory`filter, v.memory`value
    ensures v.threads.filter == ThreadLabels(Cached(old(v.cachedCores), DetectedCores(c1)))
    ensures v.memory.filter == MemoryLabels(Cached(old(v.cachedMemory), DetectedMemoryGb(m1)))
    ensures v.threads.value == v.threads.filter[0] && v.memory.value == v.memory.filter[1]
  {
    v.InitializeParameters(c1, m1, activeMap);
    ThreadSelectionFollowsTier(v.cachedCores.value, v.cachedCores.value, 0);
    MemorySelectionFollowsTier(v.cachedMemory.value, v.cachedMemory.value, 1);
    v.UpdateParameters(c2, m2, activeMap);
    v.UpdateParameters(c3, m3, activeMap);
  }
}
