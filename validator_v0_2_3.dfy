/**
 * The v0.2.3 tool validator (auto-discovery mode): thread and memory dropdowns
 * built from the capability dict, both defaulting to "Auto (Recommended)", and
 * required-value messages. `updateParameters` changes nothing and is not modelled.
 */
module ValidatorV023 {
  import opened Wrappers
  import opened Text
  import opened Seqs
  import opened Labels
  import opened Capabilities
  import opened Host

  const AutoRecommended := "Auto (Recommended)"

  /** The utilisation tiers of both dropdowns, in list order. */
  const Percents: seq<nat> := [30, 45, 60, 90]

  /** The manual memory sizes offered when the machine has at least that much. */
  const CommonSizes: seq<nat> := [2, 4, 8, 16, 32]

  const FallbackThreadOptions := [AutoRecommended, "Single Thread", "2 Threads", "4 Threads"]
  const FallbackMemoryOptions := [AutoRecommended, "2 GB", "4 GB", "8 GB"]

  const OutputRequired := "Output feature layer is required."
  const OutputDirWarning := "Output directory may not exist. Please verify the path."
  const ThreadRequired := "Thread count selection is required."
  const MemoryRequired := "Memory allocation selection is required."

  /** `caps.get(key, default)`. */
  function GetOr(caps: map<string, nat>, key: string, default: nat): (v: nat)
    ensures key in caps ==> v == caps[key]
    ensures key !in caps ==> v == default
  {
    if key in caps then caps[key] else default
  }

  /** `max(1, int(n * percent / 100))`: at least one, and never more than `n` for `n >= 1`. */
  function TierCount(n: nat, percent: nat): (t: nat)
    ensures t >= 1
    ensures n >= 1 && percent <= 100 ==> t <= n
    ensures t * 100 <= Max(100, n * percent) < (t + 1) * 100
  {
    Max(1, Pct(n, percent))
  }

  /** A higher tier never offers fewer threads or GB. */
  lemma TierCountMonotone(n: nat, p: nat, q: nat)
    requires p <= q
    ensures TierCount(n, p) <= TierCount(n, q)
  {
    assert n * p <= n * q;
    assert n * p / 100 <= n * q / 100;
  }

  /** One label per percentage, in order. */
  function TierLabels(n: nat, percents: seq<nat>, labelOf: (nat, nat) -> string): (labels: seq<string>)
    ensures |labels| == |percents|
    ensures forall i :: 0 <= i < |percents| ==> labels[i] == labelOf(n, percents[i])
  {
    if percents == [] then []
    else TierLabels(n, percents[..|percents| - 1], labelOf) + [labelOf(n, percents[|percents| - 1])]
  }

  /** The loop `for percent in [30, 45, 60, 90]: ... options.append(label)`. */
  method AppendTierLabels(options: seq<string>, n: nat, labelOf: (nat, nat) -> string) returns (out: seq<string>)
    ensures out == options + TierLabels(n, Percents, labelOf)
  {
    out := options;
    var k := 0;
    while k < |Percents|
      invariant 0 <= k <= |Percents|
      invariant out == options + TierLabels(n, Percents[..k], labelOf)
    {
      assert Percents[..k + 1][..k] == Percents[..k];
      out := out + [labelOf(n, Percents[k])];
      k := k + 1;
    }
    assert Percents[..k] == Percents;
  }

  // ------------------------------------------------------------------ thread options

  /** `f"{threads} Threads ({percent}% - {threads}/{cpu_count} cores)"`. */
  function ThreadTierLabel(c: nat, percent: nat): string
  {
    var t := NatToString(TierCount(c, percent));
    t + " Threads (" + NatToString(percent) + "% - " + t + "/" + NatToString(c) + " cores)"
  }

  /** `f"Half Cores ({cpu_count // 2} threads)" if cpu_count > 2 else "2 Threads"`. */
  function HalfCoresLabel(c: nat): string
  {
    if c > 2 then "Half Cores (" + NatToString(c / 2) + " threads)" else "2 Threads"
  }

  function AllCoresLabel(c: nat): string
  {
    "All Cores (" + NatToString(c) + " threads)"
  }

  /** The thread dropdown for `c` logical CPUs. */
  function ThreadOptions(c: nat): seq<string>
  {
    [AutoRecommended] + TierLabels(c, Percents, ThreadTierLabel) + ["Single Thread", HalfCoresLabel(c), AllCoresLabel(c)]
  }

  /**
   * Eight entries: Auto, the 30/45/60/90% tiers, "Single Thread", the half-cores
   * entry and the all-cores entry, in that order.
   */
  lemma ThreadOptionsShape(c: nat)
    ensures |ThreadOptions(c)| == 8
    ensures ThreadOptions(c)[0] == AutoRecommended
    ensures forall i :: 0 <= i < 4 ==> ThreadOptions(c)[i + 1] == ThreadTierLabel(c, Percents[i])
    ensures ThreadOptions(c)[5] == "Single Thread"
    ensures ThreadOptions(c)[6] == HalfCoresLabel(c) && (c <= 2 ==> ThreadOptions(c)[6] == "2 Threads")
    ensures ThreadOptions(c)[7] == AllCoresLabel(c)
  {
  }

  /** `_get_thread_options(system_caps)`: the loop over the tiers, then the manual entries. */
  method GetThreadOptions(caps: map<string, nat>) returns (options: seq<string>)
    ensures options == ThreadOptions(GetOr(caps, "cpu_count", 4))
  {
    var c := GetOr(caps, "cpu_count", 4);
    options := AppendTierLabels([AutoRecommended], c, ThreadTierLabel);
    options := options + ["Single Thread", HalfCoresLabel(c), AllCoresLabel(c)];
  }

  /** A capability dict without "cpu_count" (such as `{}`) is read as four CPUs. */
  lemma EmptyCapsAreFourCpus()
    ensures GetOr(map[], "cpu_count", 4) == 4 && GetOr(map[], "memory_gb", 8) == 8
    ensures ThreadOptions(GetOr(map[], "cpu_count", 4))[0] == AutoRecommended
  {
  }

  // ------------------------------------------------------------------ memory options

  /** `f"{memory} GB ({percent}% - {memory}/{memory_gb} GB available)"`. */
  function MemoryTierLabel(m: nat, percent: nat): string
  {
    var x := NatToString(TierCount(m, percent));
    x + " GB (" + NatToString(percent) + "% - " + x + "/" + NatToString(m) + " GB available)"
  }

  /** `f"{size} GB"` for each size, in order. */
  function SizeLabels(sizes: seq<nat>): (labels: seq<string>)
    ensures |labels| == |sizes|
    ensures forall i :: 0 <= i < |sizes| ==> labels[i] == NatToString(sizes[i]) + " GB"
  {
    if sizes == [] then []
    else SizeLabels(sizes[..|sizes| - 1]) + [NatToString(sizes[|sizes| - 1]) + " GB"]
  }

  /** The sizes that are at most `m`, in order. */
  function SizesUpTo(sizes: seq<nat>, m: nat): (r: seq<nat>)
    ensures |r| <= |sizes|
    ensures forall s :: s in r <==> s in sizes && s <= m
  {
    if sizes == [] then []
    else
      var init := sizes[..|sizes| - 1];
      var last := sizes[|sizes| - 1];
      assert forall s :: s in sizes <==> s in init || s == last;
      SizesUpTo(init, m) + (if last <= m then [last] else [])
  }

  predicate Ascending(xs: seq<nat>)
  {
    forall i, j :: 0 <= i < j < |xs| ==> xs[i] < xs[j]
  }

  /** Picking from an ascending list keeps it ascending. */
  lemma {:induction false} SizesUpToAscending(sizes: seq<nat>, m: nat)
    requires Ascending(sizes)
    ensures Ascending(SizesUpTo(sizes, m))
  {
    if sizes != [] {
      var n := |sizes|;
      var init, last := sizes[..n - 1], sizes[n - 1];
      SizesUpToAscending(init, m);
      var r0 := SizesUpTo(init, m);
      forall k | 0 <= k < |r0|
        ensures r0[k] < last
      {
        assert r0[k] in init;
        var i :| 0 <= i < |init| && init[i] == r0[k];
      }
      assert SizesUpTo(sizes, m) == r0 + (if last <= m then [last] else []);
      if last <= m {
        var r := r0 + [last];
        forall i, j | 0 <= i < j < |r|
          ensures r[i] < r[j]
        {
          if j == |r0| {
            assert r[i] == r0[i] && r0[i] < last;
          } else {
            assert r[i] == r0[i] && r[j] == r0[j];
          }
        }
      }
    }
  }

  /** The memory dropdown for `m` GB. */
  function MemoryOptions(m: nat): seq<string>
  {
    [AutoRecommended] + TierLabels(m, Percents, MemoryTierLabel) + SizeLabels(SizesUpTo(CommonSizes, m))
  }

  /**
   * Auto, the four tiers, then exactly the common sizes up to `m`, in ascending
   * order: five entries plus one per size that fits.
   */
  lemma MemoryOptionsShape(m: nat)
    ensures var sizes := SizesUpTo(CommonSizes, m);
      && |MemoryOptions(m)| == 5 + |sizes|
      && MemoryOptions(m)[0] == AutoRecommended
      && (forall i :: 0 <= i < 4 ==> MemoryOptions(m)[i + 1] == MemoryTierLabel(m, Percents[i]))
      && (forall i :: 0 <= i < |sizes| ==> MemoryOptions(m)[i + 5] == NatToString(sizes[i]) + " GB")
  {
  }

  /** The sizes listed after the tiers are exactly the common sizes up to `m`, smallest first. */
  lemma CommonSizesOffered(m: nat)
    ensures forall s :: s in SizesUpTo(CommonSizes, m) <==> s in CommonSizes && s <= m
    ensures Ascending(SizesUpTo(CommonSizes, m))
  {
    SizesUpToAscending(CommonSizes, m);
  }

  /** `for size in common_sizes: if size <= memory_gb: options.append(f"{size} GB")`. */
  method AppendSizeLabels(options: seq<string>, sizes: seq<nat>, m: nat) returns (out: seq<string>)
    ensures out == options + SizeLabels(SizesUpTo(sizes, m))
  {
    out := options;
    var j := 0;
    while j < |sizes|
      invariant 0 <= j <= |sizes|
      invariant out == options + SizeLabels(SizesUpTo(sizes[..j], m))
    {
      var size := sizes[j];
      assert sizes[..j + 1][..j] == sizes[..j];
      ghost var before := SizesUpTo(sizes[..j], m);
      if size <= m {
        assert (before + [size])[..|before|] == before;
        out := out + [NatToString(size) + " GB"];
      } else {
        assert before + [] == before;
      }
      j := j + 1;
    }
    assert sizes[..j] == sizes;
  }

  /** `_get_memory_options(system_caps)`: the loop over the tiers, then the loop over the common sizes. */
  method GetMemoryOptions(caps: map<string, nat>) returns (options: seq<string>)
    ensures options == MemoryOptions(GetOr(caps, "memory_gb", 8))
  {
    var m := GetOr(caps, "memory_gb", 8);
    options := AppendTierLabels([AutoRecommended], m, MemoryTierLabel);
    options := AppendSizeLabels(options, CommonSizes, m);
  }

  /** "Auto (Recommended)" is on every list `initializeParameters` can install. */
  lemma AutoIsOffered(c: nat, m: nat)
    ensures AutoRecommended in ThreadOptions(c) && AutoRecommended in MemoryOptions(m)
    ensures AutoRecommended in FallbackThreadOptions && AutoRecommended in FallbackMemoryOptions
  {
    assert ThreadOptions(c)[0] == AutoRecommended;
    assert MemoryOptions(m)[0] == AutoRecommended;
  }

  // ------------------------------------------------------------------ paths

  /** A path separator of Windows paths (which also accept "/"). */
  predicate IsSep(ch: char)
  {
    ch == '/' || ch == '\\'
  }

  /** The length of `path` up to and including its last separator (0 without one). */
  function LastSepEnd(path: string): (i: nat)
    ensures i <= |path|
    ensures i > 0 ==> IsSep(path[i - 1])
    ensures forall k :: i <= k < |path| ==> !IsSep(path[k])
  {
    if path == [] then 0
    else if IsSep(path[|path| - 1]) then |path|
    else LastSepEnd(path[..|path| - 1])
  }

  /** `s.rstrip("/\\")`. */
  function RStripSeps(s: string): (r: string)
    ensures |r| <= |s| && r == s[..|r|]
    ensures r != [] ==> !IsSep(r[|r| - 1])
    ensures forall k :: |r| <= k < |s| ==> IsSep(s[k])
  {
    if s == [] || !IsSep(s[|s| - 1]) then s else RStripSeps(s[..|s| - 1])
  }

  /**
   * `os.path.dirname(path)`: the head before the last separator, with trailing
   * separators removed unless the head is all separators. A plain name has none.
   */
  function Dirname(path: string): (d: string)
    ensures |d| <= |path| && d == path[..|d|]
    ensures (forall k :: 0 <= k < |path| ==> !IsSep(path[k])) ==> d == ""
    ensures |d| <= LastSepEnd(path)
    ensures forall k :: |d| <= k < LastSepEnd(path) ==> IsSep(path[k])
    ensures (exists k :: 0 <= k < LastSepEnd(path) && !IsSep(path[k])) ==> d != "" && !IsSep(d[|d| - 1])
    ensures (forall k :: 0 <= k < LastSepEnd(path) ==> IsSep(path[k])) ==> d == path[..LastSepEnd(path)]
  {
    var head := path[..LastSepEnd(path)];
    var stripped := RStripSeps(head);
    if stripped == [] then head else stripped
  }

  /** "a/b" has head "a", repeated separators are dropped, and a root stays a root. */
  lemma DirnameExamples()
    ensures Dirname("a/b") == "a" && Dirname("a//b") == "a" && Dirname("/x") == "/" && Dirname("x") == ""
  {
    DirnameOneSep();
    DirnameTwoSeps();
    DirnameRoot();
  }

  lemma DirnameOneSep()
    ensures Dirname("a/b") == "a"
  {
    assert LastSepEnd("a/b") == 2 by { assert "a/b"[..2] == "a/"; }
    assert RStripSeps("a/") == "a" by { assert "a/"[..1] == "a"; }
  }

  lemma DirnameTwoSeps()
    ensures Dirname("a//b") == "a"
  {
    assert LastSepEnd("a//b") == 3 by {
      assert "a//b"[..3] == "a//";
      assert LastSepEnd("a//") == 3;
    }
    assert "a//b"[..3] == "a//";
    assert RStripSeps("a/") == "a" by { assert "a/"[..1] == "a"; }
    assert RStripSeps("a//") == "a" by { assert "a//"[..2] == "a/"; }
  }

  lemma DirnameRoot()
    ensures Dirname("/x") == "/"
  {
    assert LastSepEnd("/x") == 1 by { assert "/x"[..1] == "/"; }
    assert RStripSeps("/") == "" by { assert "/"[..0] == ""; }
  }

  /** The capabilities dict answers `cpu_count` and `memory_gb` with the detected figures. */
  lemma CapsDictReads(c: SystemCaps)
    ensures GetOr(CapsDict(c), "cpu_count", 4) == c.cpuCount
    ensures GetOr(CapsDict(c), "memory_gb", 8) == c.memoryGb
  {
    assert "cpu_count" in CapsDict(c) && "memory_gb" in CapsDict(c);
  }

  // ------------------------------------------------------------------ the validator

  class ToolValidator {
    /** `self.params[0]`, `[1]` and `[2]`: output feature layer, threads, memory. */
    const output: Parameter
    const threads: Parameter
    const memory: Parameter

    constructor (output: Parameter, threads: Parameter, memory: Parameter)
      requires Distinct3(output, threads, memory)
      ensures this.output == output && this.threads == threads && this.memory == memory
    {
      this.output := output;
      this.threads := threads;
      this.memory := memory;
    }

    /**
     * Fills each dropdown that has a filter with the options for the detected
     * machine and selects "Auto (Recommended)"; when the host raises part-way
     * (`hostRaises`), the `except` branch installs the fixed fallback lists instead.
     */
    method InitializeParameters(probe: PsutilProbe, hostRaises: bool)
      requires Distinct3(output, threads, memory)
      modifies threads`filter, threads`value, memory`filter, memory`value
      ensures threads.hasFilter ==> (threads.value == AutoRecommended
        && threads.filter == (if hostRaises then FallbackThreadOptions
                              else ThreadOptions(SystemCapabilities(probe).cpuCount)))
      ensures memory.hasFilter ==> (memory.value == AutoRecommended
        && memory.filter == (if hostRaises then FallbackMemoryOptions
                             else MemoryOptions(SystemCapabilities(probe).memoryGb)))
      ensures !threads.hasFilter ==> threads.filter == old(threads.filter) && threads.value == old(threads.value)
      ensures !memory.hasFilter ==> memory.filter == old(memory.filter) && memory.value == old(memory.value)
      ensures threads.hasFilter ==> threads.value in threads.filter
      ensures memory.hasFilter ==> memory.value in memory.filter
    {
      AutoIsOffered(SystemCapabilities(probe).cpuCount, SystemCapabilities(probe).memoryGb);
      if hostRaises {
        if threads.hasFilter {
          threads.filter := FallbackThreadOptions;
          threads.value := AutoRecommended;
        }
        if memory.hasFilter {
          memory.filter := FallbackMemoryOptions;
          memory.value := AutoRecommended;
        }
        return;
      }
      var sys := SystemCapabilities(probe);
      var caps := CapsDict(sys);
      CapsDictReads(sys);
      if threads.hasFilter {
        var options := GetThreadOptions(caps);
        threads.filter := options;
        threads.value := AutoRecommended;
      }
      if memory.hasFilter {
        var options := GetMemoryOptions(caps);
        memory.filter := options;
        memory.value := AutoRecommended;
      }
    }

    /**
     * An altered output with no text is an error and one whose folder does not
     * exist a warning; empty thread or memory text is an error on that parameter.
     */
    method UpdateMessages(dirExists: string -> bool)
      requires Distinct3(output, threads, memory)
      modifies output`warning, output`error, threads`error, memory`error
      ensures output.error == if output.altered && output.value == "" then Some(OutputRequired) else old(output.error)
      ensures output.warning ==
        if output.altered && output.value != "" && Dirname(output.value) != "" && !dirExists(Dirname(output.value))
        then Some(OutputDirWarning) else old(output.warning)
      ensures threads.error == if threads.value == "" then Some(ThreadRequired) else old(threads.error)
      ensures memory.error == if memory.value == "" then Some(MemoryRequired) else old(memory.error)
    {
      if output.altered {
        if output.value != "" {
          var dir := Dirname(output.value);
          if dir != "" && !dirExists(dir) {
            output.warning := Some(OutputDirWarning);
          }
        } else {
          output.error := Some(OutputRequired);
        }
      }
      if threads.value == "" {
        threads.error := Some(ThreadRequired);
      }
      if memory.value == "" {
        memory.error := Some(MemoryRequired);
      }
    }
  }

  /**
   * After initialisation each dropdown with a filter has its selection on its
   * list, whichever branch ran, so its messages ask for nothing.
   */
  method InitializeSelectsListed(v: ToolValidator, probe: PsutilProbe, hostRaises: bool, dirExists: string -> bool)
    requires Distinct3(v.output, v.threads, v.memory)
    modifies v.threads`filter, v.threads`value, v.memory`filter, v.memory`value
    modifies v.output`warning, v.output`error, v.threads`error, v.memory`error
    ensures v.threads.hasFilter ==> v.threads.value in v.threads.filter && v.threads.error == old(v.threads.error)
    ensures v.memory.hasFilter ==> v.memory.value in v.memory.filter && v.memory.error == old(v.memory.error)
  {
    v.InitializeParameters(probe, hostRaises);
    v.UpdateMessages(dirExists);
  }
}
