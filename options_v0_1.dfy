/**
 * The dropdown options of the phase-one toolboxes (v0.1.3 and v0.1.4): the
 * thread and memory option builders and the default each dropdown starts at.
 * Their capability probe is `Capabilities.HostResources`. Both versions build
 * their lists as single expressions, so the model is functions.
 */
module PhaseOneOptions {
  import opened Wrappers
  import opened Text
  import opened Labels
  import opened Capabilities

  /** Python's `int(x)`: truncation toward zero. */
  function Trunc(x: real): (n: int)
    ensures x >= 0.0 ==> n as real <= x < n as real + 1.0
    ensures x < 0.0 ==> n as real - 1.0 < x <= n as real
  {
    if x >= 0.0 then x.Floor else -((-x).Floor)
  }

  /** A thread label of either version: `f"{tier} ({count} threads)"`. */
  function ThreadLabel(tier: string, count: nat): string
  {
    tier + " (" + NatToString(count) + " threads)"
  }

  const ThreeTiers: seq<string> := ["Conservative", "Balanced", "Performance"]
  const FourTiers: seq<string> := ["Conservative", "Balanced", "Aggressive", "Maximum"]

  /**
   * Reading a label back: the text between `tier + " ("` and `unit`, when the
   * label has that shape.
   */
  function Shown(text: string, tier: string, unit: string): (r: Option<string>)
    ensures r.Some? ==> text == tier + " (" + r.value + unit
  {
    var pre := tier + " (";
    if |pre| + |unit| <= |text| && text[..|pre|] == pre && text[|text| - |unit|..] == unit then
      assert text == pre + text[|pre|..|text| - |unit|] + unit;
      Some(text[|pre|..|text| - |unit|])
    else
      None
  }

  /** A label built from a tier, a figure and a unit reads back as that figure. */
  lemma ShownLabel(tier: string, middle: string, unit: string)
    ensures Shown(tier + " (" + middle + unit, tier, unit) == Some(middle)
  {
    var l := tier + " (" + middle + unit;
    assert l[|tier + " ("|..|l| - |unit|] == middle;
  }

  /** A thread label shows its count: its figure is a numeral that reads back as the count. */
  lemma ThreadLabelShows(tier: string, count: nat)
    ensures var r := Shown(ThreadLabel(tier, count), tier, " threads)");
      r.Some? && AllDigits(r.value) && ParseNat(r.value) == count
  {
    ShownLabel(tier, NatToString(count), " threads)");
    ParseNatToString(count);
  }

  /** The letters that tell the tier names apart, and their absence from the fixed label text. */
  lemma Capitals()
    ensures 'B' !in "Conservative" && 'A' !in "Conservative" && 'M' !in "Conservative" && 'P' !in "Conservative"
    ensures 'l' !in "Conservative"
    ensures 'C' !in "Balanced" && 'A' !in "Balanced" && 'M' !in "Balanced" && 'P' !in "Balanced"
    ensures 'C' !in "Aggressive" && 'B' !in "Aggressive" && 'M' !in "Aggressive"
    ensures 'C' !in "Maximum" && 'B' !in "Maximum" && 'A' !in "Maximum"
    ensures 'C' !in "Performance" && 'B' !in "Performance" && 'l' !in "Performance"
    ensures forall c :: c in "ABCMPl" ==> c !in " (" && c !in " threads)" && !IsDigit(c)
    ensures forall c :: c in "ACMPl" ==> c !in " GB)"
  {
    Lacks("Conservative", "BAMPl");
    Lacks("Balanced", "CAMP");
    Lacks("Aggressive", "CBM");
    Lacks("Maximum", "CBA");
    Lacks("Performance", "CBl");
    Lacks(" (", "ABCMPl");
    Lacks(" threads)", "ABCMPl");
    Lacks(" GB)", "ACMPl");
  }

  /** No character of `cs` occurs in `s`. */
  lemma Lacks(s: string, cs: string)
    requires forall k, m :: 0 <= k < |s| && 0 <= m < |cs| ==> s[k] != cs[m]
    ensures forall c :: c in cs ==> c !in s
  {
  }

  /** A thread label names its own tier and none of the other tier names. */
  lemma ThreadLabelTier(tier: string, count: nat, other: string, c: char)
    requires c in "ABCMPl" && c in other && c !in tier
    ensures Contains(ThreadLabel(tier, count), tier) && !Contains(ThreadLabel(tier, count), other)
  {
    Capitals();
    var l := ThreadLabel(tier, count);
    assert OccursAt(l, tier, 0);
    DigitsExclude(NatToString(count), c);
    MissingCharExcludes(l, other, c);
  }

  // ------------------------------------------------------------------ v0.1.4

  /** 25%, 50% and 75% of the cores, at least 1, 2 and 3. */
  function ThreadCounts(cores: nat): (ts: seq<nat>)
  {
    [Max(1, cores / 4), Max(2, cores / 2), Max(3, 3 * cores / 4)]
  }

  /**
   * The three counts are a quarter, a half and three quarters of the cores,
   * rounded down and raised to at least 1, 2 and 3; they never decrease, and from
   * 3 cores on none exceeds the cores.
   */
  lemma ThreadCountsShape(cores: nat)
    ensures var ts := ThreadCounts(cores);
      && |ts| == 3 && ts[0] >= 1 && ts[1] >= 2 && ts[2] >= 3
      && ts[0] * 4 <= Max(4, cores) < (ts[0] + 1) * 4
      && ts[1] * 2 <= Max(4, cores) < (ts[1] + 1) * 2
      && ts[2] * 4 <= Max(12, 3 * cores) < (ts[2] + 1) * 4
      && ts[0] <= ts[1] <= ts[2]
      && (cores >= 3 ==> ts[2] <= cores)
  {
  }

  /** `create_dynamic_thread_options(cpu_cores)`. */
  function ThreadOptions(cores: nat): (options: seq<string>)
    ensures |options| == 3
  {
    var ts := ThreadCounts(cores);
    [ThreadLabel("Conservative", ts[0]), ThreadLabel("Balanced", ts[1]), ThreadLabel("Performance", ts[2])]
  }

  /**
   * Entry i of the thread list names tier i and no other tier, and the count it
   * shows reads back as the i-th count.
   */
  lemma ThreadOptionsShow(cores: nat)
    ensures Identifies(ThreadOptions(cores), ThreeTiers)
    ensures forall i :: 0 <= i < 3 ==>
      var r := Shown(ThreadOptions(cores)[i], ThreeTiers[i], " threads)");
      r.Some? && AllDigits(r.value) && ParseNat(r.value) == ThreadCounts(cores)[i]
  {
    var ts := ThreadCounts(cores);
    ThreadLabelShows("Conservative", ts[0]);
    ThreadLabelShows("Balanced", ts[1]);
    ThreadLabelShows("Performance", ts[2]);
    ThreeTierLabel(0, ts[0]);
    ThreeTierLabel(1, ts[1]);
    ThreeTierLabel(2, ts[2]);
  }

  /** The i-th v0.1.4 thread label contains the i-th tier name and neither of the other two. */
  lemma ThreeTierLabel(i: nat, count: nat)
    requires i < 3
    ensures forall j :: 0 <= j < 3 ==> (Contains(ThreadLabel(ThreeTiers[i], count), ThreeTiers[j]) <==> j == i)
  {
    var c, b, p := "Conservative", "Balanced", "Performance";
    Capitals();
    if i == 0 {
      ThreadLabelTier(c, count, b, 'B'); ThreadLabelTier(c, count, p, 'P');
    } else if i == 1 {
      ThreadLabelTier(b, count, c, 'C'); ThreadLabelTier(b, count, p, 'P');
    } else {
      ThreadLabelTier(p, count, c, 'C'); ThreadLabelTier(p, count, b, 'B');
    }
  }

  /** 25%, 50% and 75% of the available GB, truncated, at least 2, 4 and 6. */
  function MemoryCounts(availableGb: real): (gs: seq<int>)
  {
    [Max(2, Trunc(availableGb * 0.25)), Max(4, Trunc(availableGb * 0.5)), Max(6, Trunc(availableGb * 0.75))]
  }

  /**
   * The three sizes are a quarter, a half and three quarters of the memory,
   * raised to at least 2, 4 and 6 GB and rounded down; they never decrease, and
   * from 8 GB on each is within its share of the memory.
   */
  lemma MemoryCountsShape(availableGb: real)
    ensures var gs := MemoryCounts(availableGb);
      && |gs| == 3 && gs[0] >= 2 && gs[1] >= 4 && gs[2] >= 6
      && gs[0] as real <= MaxReal(2.0, availableGb * 0.25) < gs[0] as real + 1.0
      && gs[1] as real <= MaxReal(4.0, availableGb * 0.5) < gs[1] as real + 1.0
      && gs[2] as real <= MaxReal(6.0, availableGb * 0.75) < gs[2] as real + 1.0
      && gs[0] <= gs[1] <= gs[2]
      && (availableGb >= 8.0 ==>
            (gs[0] as real <= availableGb * 0.25 && gs[1] as real <= availableGb * 0.5
             && gs[2] as real <= availableGb * 0.75))
  {
    var a := availableGb;
    if a >= 0.0 {
      assert Trunc(a * 0.25) <= Trunc(a * 0.5) by {
        assert Trunc(a * 0.25) as real <= a * 0.5;
      }
      assert Trunc(a * 0.5) <= Trunc(a * 0.75) by {
        assert Trunc(a * 0.5) as real <= a * 0.75;
      }
    }
  }

  /** A memory label of v0.1.4: `f"{tier} ({gb} GB)"`. */
  function GbLabel(tier: string, gb: int): string
  {
    tier + " (" + (if gb < 0 then "-" + NatToString(-gb) else NatToString(gb)) + " GB)"
  }

  /** `create_dynamic_memory_options(available_memory_gb)`. */
  function MemoryOptions(availableGb: real): (options: seq<string>)
    ensures |options| == 3
  {
    var gs := MemoryCounts(availableGb);
    [GbLabel("Conservative", gs[0]), GbLabel("Balanced", gs[1]), GbLabel("Performance", gs[2])]
  }

  /** A v0.1.4 memory label shows its (at least 2) GB figure as a numeral that reads back as the figure. */
  lemma GbLabelShows(tier: string, gb: int)
    requires gb >= 0
    ensures var r := Shown(GbLabel(tier, gb), tier, " GB)");
      r.Some? && AllDigits(r.value) && ParseNat(r.value) == gb
  {
    ShownLabel(tier, NatToString(gb), " GB)");
    ParseNatToString(gb);
  }

  /** A v0.1.4 memory label names its own tier and none of the other tier names. */
  lemma GbLabelTier(tier: string, gb: int, other: string, c: char)
    requires gb >= 0
    requires c in "ACMPl" && c in other && c !in tier
    ensures Contains(GbLabel(tier, gb), tier) && !Contains(GbLabel(tier, gb), other)
  {
    Capitals();
    var l := GbLabel(tier, gb);
    assert OccursAt(l, tier, 0);
    DigitsExclude(NatToString(gb), c);
    MissingCharExcludes(l, other, c);
  }

  /**
   * Entry i of the memory list names tier i and no other tier, and the GB figure
   * it shows reads back as the i-th size.
   */
  lemma MemoryOptionsShow(availableGb: real)
    ensures Identifies(MemoryOptions(availableGb), ThreeTiers)
    ensures forall i :: 0 <= i < 3 ==>
      var r := Shown(MemoryOptions(availableGb)[i], ThreeTiers[i], " GB)");
      r.Some? && AllDigits(r.value) && ParseNat(r.value) == MemoryCounts(availableGb)[i]
  {
    MemoryCountsShape(availableGb);
    GbListShows(MemoryCounts(availableGb));
  }

  /** The same for any three non-negative figures. */
  lemma GbListShows(gs: seq<int>)
    requires |gs| == 3 && gs[0] >= 0 && gs[1] >= 0 && gs[2] >= 0
    ensures var o := [GbLabel("Conservative", gs[0]), GbLabel("Balanced", gs[1]), GbLabel("Performance", gs[2])];
      && Identifies(o, ThreeTiers)
      && forall i :: 0 <= i < 3 ==>
        var r := Shown(o[i], ThreeTiers[i], " GB)");
        r.Some? && AllDigits(r.value) && ParseNat(r.value) == gs[i]
  {
    GbLabelShows("Conservative", gs[0]);
    GbLabelShows("Balanced", gs[1]);
    GbLabelShows("Performance", gs[2]);
    ThreeGbLabel(0, gs[0]);
    ThreeGbLabel(1, gs[1]);
    ThreeGbLabel(2, gs[2]);
  }

  /** The i-th v0.1.4 memory label contains the i-th tier name and neither of the other two. */
  lemma ThreeGbLabel(i: nat, gb: int)
    requires i < 3 && gb >= 0
    ensures forall j :: 0 <= j < 3 ==> (Contains(GbLabel(ThreeTiers[i], gb), ThreeTiers[j]) <==> j == i)
  {
    var c, b, p := "Conservative", "Balanced", "Performance";
    Capitals();
    if i == 0 {
      GbLabelTier(c, gb, b, 'l'); GbLabelTier(c, gb, p, 'P');
    } else if i == 1 {
      GbLabelTier(b, gb, c, 'C'); GbLabelTier(b, gb, p, 'P');
    } else {
      GbLabelTier(p, gb, c, 'C'); GbLabelTier(p, gb, b, 'l');
    }
  }

  /** 8 cores and 8 GB both give 2, 4 and 6; the thread list in full. */
  lemma OptionExamples()
    ensures ThreadCounts(8) == [2, 4, 6] && MemoryCounts(8.0) == [2, 4, 6]
    ensures ThreadOptions(8) == ["Conservative (2 threads)", "Balanced (4 threads)", "Performance (6 threads)"]
  {
    SpellThreadLabel("Conservative", 2, "2");
    SpellThreadLabel("Balanced", 4, "4");
    SpellThreadLabel("Performance", 6, "6");
    assert ThreadCounts(8) == [2, 4, 6];
    assert ThreadOptions(8) == [ThreadLabel("Conservative", 2), ThreadLabel("Balanced", 4), ThreadLabel("Performance", 6)];
    assert ThreadLabel("Conservative", 2) == "Conservative (2 threads)";
    assert ThreadLabel("Balanced", 4) == "Balanced (4 threads)";
    assert ThreadLabel("Performance", 6) == "Performance (6 threads)";
  }

  lemma SpellThreadLabel(tier: string, count: nat, digits: string)
    requires count < 10 && digits == [DigitChar(count)]
    ensures ThreadLabel(tier, count) == tier + " (" + digits + " threads)"
  {
  }


  /** A dropdown as `getParameterInfo` leaves it: its filter list and its value. */
  datatype Dropdown = Dropdown(options: seq<string>, value: string)

  /**
   * The two dropdowns of `getParameterInfo` (v0.1.4): each lists its options
   * and starts at the second, the "Balanced" tier.
   */
  function Dropdowns(caps: Resources): (d: (Dropdown, Dropdown))
    ensures |d.0.options| == 3 && |d.1.options| == 3
    ensures d.0.value in d.0.options && d.1.value in d.1.options
    ensures d.0.value == ThreadLabel("Balanced", Max(2, caps.cpuCores / 2))
    ensures d.1.value == GbLabel("Balanced", Max(4, Trunc(caps.availableGb * 0.5)))
  {
    var threads, memory := ThreadOptions(caps.cpuCores), MemoryOptions(caps.availableGb);
    (Dropdown(threads, threads[1]), Dropdown(memory, memory[1]))
  }

  /** When detection raises, the tool offers 1, 2 and 3 threads (default 2) and 2, 4 and 6 GB (default 4). */
  lemma FallbackDropdowns()
    ensures Dropdowns(FallbackResources).0.options == ["Conservative (1 threads)", "Balanced (2 threads)", "Performance (3 threads)"]
    ensures Dropdowns(FallbackResources).1.value == "Balanced (4 GB)"
  {
    SpellThreadLabel("Conservative", 1, "1");
    SpellThreadLabel("Balanced", 2, "2");
    SpellThreadLabel("Performance", 3, "3");
    assert ThreadOptions(4) == [ThreadLabel("Conservative", 1), ThreadLabel("Balanced", 2), ThreadLabel("Performance", 3)];
    assert ThreadLabel("Conservative", 1) == "Conservative (1 threads)";
    assert ThreadLabel("Balanced", 2) == "Balanced (2 threads)";
    assert ThreadLabel("Performance", 3) == "Performance (3 threads)";
    assert Trunc(8.0 * 0.5) == 4;
    assert NatToString(4) == "4";
  }

  // ------------------------------------------------------------------ v0.1.3

  /** 25%, 50% and 75% of the cores, each at least 1, then every core. */
  function FourThreadCounts(cores: nat): (ts: seq<nat>)
  {
    [Max(1, cores / 4), Max(1, cores / 2), Max(1, 3 * cores / 4), cores]
  }

  /**
   * The first three counts are a quarter, a half and three quarters of the cores,
   * rounded down and raised to at least 1; the last is all the cores. With at
   * least one core every count lies between 1 and the cores and the counts never
   * decrease.
   */
  lemma FourThreadCountsShape(cores: nat)
    requires cores >= 1
    ensures var ts := FourThreadCounts(cores);
      && |ts| == 4 && ts[3] == cores
      && ts[0] * 4 <= Max(4, cores) < (ts[0] + 1) * 4
      && ts[1] * 2 <= Max(2, cores) < (ts[1] + 1) * 2
      && ts[2] * 4 <= Max(4, 3 * cores) < (ts[2] + 1) * 4
      && (forall i :: 0 <= i < 4 ==> 1 <= ts[i] <= cores)
      && (forall i, j :: 0 <= i <= j < 4 ==> ts[i] <= ts[j])
  {
  }

  /** `create_dynamic_thread_options(cpu_cores)` of v0.1.3. */
  function FourThreadOptions(cores: nat): (options: seq<string>)
    ensures |options| == 4
  {
    var ts := FourThreadCounts(cores);
    [ThreadLabel("Conservative", ts[0]), ThreadLabel("Balanced", ts[1]), ThreadLabel("Aggressive", ts[2]),
     ThreadLabel("Maximum", ts[3])]
  }

  /**
   * Entry i of the v0.1.3 thread list names tier i and no other tier, and the
   * count it shows reads back as the i-th count.
   */
  lemma FourThreadOptionsShow(cores: nat)
    ensures Identifies(FourThreadOptions(cores), FourTiers)
    ensures forall i :: 0 <= i < 4 ==>
      var r := Shown(FourThreadOptions(cores)[i], FourTiers[i], " threads)");
      r.Some? && AllDigits(r.value) && ParseNat(r.value) == FourThreadCounts(cores)[i]
  {
    FourThreadListShows(FourThreadCounts(cores));
  }

  /** The same for any four counts. */
  lemma FourThreadListShows(ts: seq<nat>)
    requires |ts| == 4
    ensures var o := [ThreadLabel("Conservative", ts[0]), ThreadLabel("Balanced", ts[1]),
                      ThreadLabel("Aggressive", ts[2]), ThreadLabel("Maximum", ts[3])];
      && Identifies(o, FourTiers)
      && forall i :: 0 <= i < 4 ==>
        var r := Shown(o[i], FourTiers[i], " threads)");
        r.Some? && AllDigits(r.value) && ParseNat(r.value) == ts[i]
  {
    ThreadLabelShows("Conservative", ts[0]);
    ThreadLabelShows("Balanced", ts[1]);
    ThreadLabelShows("Aggressive", ts[2]);
    ThreadLabelShows("Maximum", ts[3]);
    FourTierLabel(0, ts[0]);
    FourTierLabel(1, ts[1]);
    FourTierLabel(2, ts[2]);
    FourTierLabel(3, ts[3]);
  }

  /** The i-th v0.1.3 thread label contains the i-th tier name and none of the other three. */
  lemma FourTierLabel(i: nat, count: nat)
    requires i < 4
    ensures forall j :: 0 <= j < 4 ==> (Contains(ThreadLabel(FourTiers[i], count), FourTiers[j]) <==> j == i)
  {
    var c, b, a, m := "Conservative", "Balanced", "Aggressive", "Maximum";
    Capitals();
    if i == 0 {
      ThreadLabelTier(c, count, b, 'B'); ThreadLabelTier(c, count, a, 'A'); ThreadLabelTier(c, count, m, 'M');
    } else if i == 1 {
      ThreadLabelTier(b, count, c, 'C'); ThreadLabelTier(b, count, a, 'A'); ThreadLabelTier(b, count, m, 'M');
    } else if i == 2 {
      ThreadLabelTier(a, count, c, 'C'); ThreadLabelTier(a, count, b, 'B'); ThreadLabelTier(a, count, m, 'M');
    } else {
      ThreadLabelTier(m, count, c, 'C'); ThreadLabelTier(m, count, b, 'B'); ThreadLabelTier(m, count, a, 'A');
    }
  }

  function MaxReal(a: real, b: real): real { if a >= b then a else b }

  /** 25%, 50%, 75% and 90% of the available GB, at least 2, 4, 6 and 8. */
  function FourMemoryValues(availableGb: real): (gs: seq<real>)
  {
    [MaxReal(2.0, availableGb * 0.25), MaxReal(4.0, availableGb * 0.5), MaxReal(6.0, availableGb * 0.75),
     MaxReal(8.0, availableGb * 0.9)]
  }

  /**
   * Each size is its share of the memory (25%, 50%, 75%, 90%) or its minimum
   * (2, 4, 6, 8 GB), whichever is larger; the sizes never decrease.
   */
  lemma FourMemoryValuesShape(availableGb: real)
    ensures var gs := FourMemoryValues(availableGb);
      && |gs| == 4 && gs[0] >= 2.0 && gs[1] >= 4.0 && gs[2] >= 6.0 && gs[3] >= 8.0
      && gs[0] >= availableGb * 0.25 && (gs[0] == 2.0 || gs[0] == availableGb * 0.25)
      && gs[1] >= availableGb * 0.5 && (gs[1] == 4.0 || gs[1] == availableGb * 0.5)
      && gs[2] >= availableGb * 0.75 && (gs[2] == 6.0 || gs[2] == availableGb * 0.75)
      && gs[3] >= availableGb * 0.9 && (gs[3] == 8.0 || gs[3] == availableGb * 0.9)
      && (forall i, j :: 0 <= i <= j < 4 ==> gs[i] <= gs[j])
  {
  }

  /** `f"{tier} ({gb:.1f} GB)"`; the one-decimal rendering of a float is a parameter. */
  function OneDecimalLabel(tier: string, gb: real, oneDecimal: real -> string): string
  {
    tier + " (" + oneDecimal(gb) + " GB)"
  }

  /** `create_dynamic_memory_options(available_memory_gb)` of v0.1.3. */
  function FourMemoryOptions(availableGb: real, oneDecimal: real -> string): (options: seq<string>)
    ensures |options| == 4
  {
    var gs := FourMemoryValues(availableGb);
    [OneDecimalLabel("Conservative", gs[0], oneDecimal), OneDecimalLabel("Balanced", gs[1], oneDecimal),
     OneDecimalLabel("Aggressive", gs[2], oneDecimal), OneDecimalLabel("Maximum", gs[3], oneDecimal)]
  }

  /**
   * Entry i of the v0.1.3 memory list begins with tier i, and the figure it shows
   * is the one-decimal rendering of the i-th size.
   */
  lemma FourMemoryOptionsShow(availableGb: real, oneDecimal: real -> string)
    ensures forall i :: 0 <= i < 4 ==>
      Shown(FourMemoryOptions(availableGb, oneDecimal)[i], FourTiers[i], " GB)")
        == Some(oneDecimal(FourMemoryValues(availableGb)[i]))
  {
    var gs := FourMemoryValues(availableGb);
    ShownLabel("Conservative", oneDecimal(gs[0]), " GB)");
    ShownLabel("Balanced", oneDecimal(gs[1]), " GB)");
    ShownLabel("Aggressive", oneDecimal(gs[2]), " GB)");
    ShownLabel("Maximum", oneDecimal(gs[3]), " GB)");
  }

  /** Every v0.1.3 thread label contains "threads)" and every memory label contains "GB)". */
  lemma FourOptionLabels(cores: nat, availableGb: real, oneDecimal: real -> string)
    ensures forall i :: 0 <= i < 4 ==> Contains(FourThreadOptions(cores)[i], "threads)")
    ensures forall i :: 0 <= i < 4 ==> Contains(FourMemoryOptions(availableGb, oneDecimal)[i], "GB)")
  {
    var ts, gs := FourThreadCounts(cores), FourMemoryValues(availableGb);
    ThreadLabelContains("Conservative", ts[0]);
    ThreadLabelContains("Balanced", ts[1]);
    ThreadLabelContains("Aggressive", ts[2]);
    ThreadLabelContains("Maximum", ts[3]);
    OneDecimalLabelContains("Conservative", gs[0], oneDecimal);
    OneDecimalLabelContains("Balanced", gs[1], oneDecimal);
    OneDecimalLabelContains("Aggressive", gs[2], oneDecimal);
    OneDecimalLabelContains("Maximum", gs[3], oneDecimal);
  }

  lemma ThreadLabelContains(tier: string, count: nat)
    ensures Contains(ThreadLabel(tier, count), "threads)")
  {
    SuffixContains(ThreadLabel(tier, count), "threads)");
  }

  lemma OneDecimalLabelContains(tier: string, gb: real, oneDecimal: real -> string)
    ensures Contains(OneDecimalLabel(tier, gb, oneDecimal), "GB)")
  {
    SuffixContains(OneDecimalLabel(tier, gb, oneDecimal), "GB)");
  }

  /** The v0.1.3 dropdowns also start at their second option, the "Balanced" tier. */
  function FourTierDropdowns(caps: Resources, oneDecimal: real -> string): (d: (Dropdown, Dropdown))
    ensures |d.0.options| == 4 && |d.1.options| == 4
    ensures d.0.value in d.0.options && d.1.value in d.1.options
    ensures d.0.value == ThreadLabel("Balanced", Max(1, caps.cpuCores / 2))
    ensures d.1.value == OneDecimalLabel("Balanced", MaxReal(4.0, caps.availableGb * 0.5), oneDecimal)
  {
    var threads, memory := FourThreadOptions(caps.cpuCores), FourMemoryOptions(caps.availableGb, oneDecimal);
    (Dropdown(threads, threads[1]), Dropdown(memory, memory[1]))
  }
}
