/**
 * Dropdown labels of the thread and memory parameters, shared by the v0.1.12 and
 * v0.2.5 validators (and the identical validator embedded in toolbox v0.2.1):
 * `_thread_labels` / `generate_thread_labels`, `_memory_labels` /
 * `generate_memory_labels`, and the "sticky selection" that carries a chosen
 * option over to a refreshed list.
 *
 * Counts are whole numbers. For a whole `n`, `int(n * 0.45)` and the other
 * percentage products truncate to `n * 45 / 100`; memory is an `int` here, so
 * `f"{g:.1f}"` prints it as `g` followed by ".0".
 */
module Labels {
  import opened Text

  function Max(a: int, b: int): int { if a >= b then a else b }

  /** `int(n * p/100)` for a whole, non-negative `n`. */
  function Pct(n: nat, p: nat): nat { n * p / 100 }

  const AutoThreadLabel := "Auto (let system decide)"

  /** The "Moderate" thread count: 45% of the cores, at least 2. */
  function ModerateThreads(cores: nat): (t: nat)
    ensures t >= 2 && (cores >= 5 ==> t <= cores)
    ensures t * 100 <= Max(200, cores * 45) < (t + 1) * 100
  {
    Max(2, Pct(cores, 45))
  }

  /** The "High" thread count: 90% of the cores, at least 3 and never above the cores when there are 3 or more. */
  function HighThreads(cores: nat): (t: nat)
    ensures t >= 3 && (cores >= 3 ==> t <= cores)
    ensures t >= ModerateThreads(cores)
    ensures t * 100 <= Max(300, cores * 90) < (t + 1) * 100
  {
    Max(3, Pct(cores, 90))
  }

  function ThreadLabels(cores: nat): (labels: seq<string>)
  {
    [ AutoThreadLabel,
      "Moderate - " + NatToString(ModerateThreads(cores)) + " threads (45% utilization)",
      "High - " + NatToString(HighThreads(cores)) + " threads (90% utilization)" ]
  }

  /** Memory tiers: 30%, 60% and 90% of the available GB, at least 2, 4 and 6 GB. */
  function ConservativeGb(gb: nat): (x: nat)
    ensures x >= 2 && (gb >= 7 ==> x <= gb)
    ensures x * 100 <= Max(200, gb * 30) < (x + 1) * 100
  {
    Max(2, Pct(gb, 30))
  }

  function BalancedGb(gb: nat): (x: nat)
    ensures x >= 4 && (gb >= 4 ==> x <= gb) && x >= ConservativeGb(gb)
    ensures x * 100 <= Max(400, gb * 60) < (x + 1) * 100
  {
    Max(4, Pct(gb, 60))
  }

  function PerformanceGb(gb: nat): (x: nat)
    ensures x >= 6 && (gb >= 6 ==> x <= gb) && x >= BalancedGb(gb)
    ensures x * 100 <= Max(600, gb * 90) < (x + 1) * 100
  {
    Max(6, Pct(gb, 90))
  }

  /** `f"{x} GB ({pct} of {gb:.1f} GB available)"` for whole numbers `x` and `gb`; `pct` is "30%", "60%" or "90%". */
  function MemoryLabel(x: nat, pct: string, gb: nat): string
  {
    NatToString(x) + " GB (" + pct + " of " + NatToString(gb) + ".0 GB available)"
  }

  function MemoryLabels(gb: nat): (labels: seq<string>)
  {
    [ MemoryLabel(ConservativeGb(gb), "30%", gb),
      MemoryLabel(BalancedGb(gb), "60%", gb),
      MemoryLabel(PerformanceGb(gb), "90%", gb) ]
  }

  /** The numerals of the worked examples below. */
  lemma Numerals()
    ensures NatToString(3) == "3" && NatToString(4) == "4" && NatToString(7) == "7" && NatToString(9) == "9"
    ensures NatToString(14) == "14" && NatToString(16) == "16"
  {
    assert NatToString(1) == "1" && NatToString(6) == "6";
  }

  /** The worked examples: 16 cores give 7 and 14 threads, 8 cores give 3 and 7; the 16-core "Moderate" label in full. */
  lemma ThreadLabelExamples()
    ensures ModerateThreads(16) == 7 && HighThreads(16) == 14
    ensures ModerateThreads(8) == 3 && HighThreads(8) == 7
    ensures ThreadLabels(16)[1] == "Moderate - 7 threads (45% utilization)"
  {
    Numerals();
  }

  /** 16 GB gives 4, 9 and 14 GB. */
  lemma MemoryLabelExamples()
    ensures MemoryLabels(16) == [MemoryLabel(4, "30%", 16), MemoryLabel(9, "60%", 16), MemoryLabel(14, "90%", 16)]
  {
  }

  /** The 90% label for 16 GB, spelled out. */
  lemma MemoryLabelSpelled()
    ensures MemoryLabel(14, "90%", 16) == "14 GB (90% of 16.0 GB available)"
  {
    Numerals();
    Spell(NatToString(14), NatToString(16));
  }

  lemma Spell(x: string, g: string)
    requires x == "14" && g == "16"
    ensures x + " GB (" + "90%" + " of " + g + ".0 GB available)" == "14 GB (90% of 16.0 GB available)"
  {
  }

  // ---------------------------------------------------------------- sticky selection

  const ThreadPatterns: seq<string> := ["Auto", "Moderate", "High"]
  const MemoryPatterns: seq<string> := ["30%", "60%", "90%"]

  /**
   * The value a dropdown keeps after its list is refreshed: an empty value, or one
   * with none of the tier patterns, is left alone; a value still in the list is kept;
   * otherwise the first pattern it contains picks the new entry of that tier.
   */
  function Sticky(current: string, options: seq<string>, patterns: seq<string>): string
    requires |options| == 3 && |patterns| == 3
  {
    if current == "" then current
    else if !(Contains(current, patterns[0]) || Contains(current, patterns[1]) || Contains(current, patterns[2])) then current
    else if current in options then current
    else if Contains(current, patterns[0]) then options[0]
    else if Contains(current, patterns[1]) then options[1]
    else if Contains(current, patterns[2]) then options[2]
    else current
  }

  /** Each entry of `options` contains the pattern of its own tier and no other. */
  predicate Identifies(options: seq<string>, patterns: seq<string>)
    requires |options| == |patterns|
  {
    forall i, j :: 0 <= i < |options| && 0 <= j < |patterns| ==> (Contains(options[i], patterns[j]) <==> i == j)
  }

  /** The selection never leaves the list: the result is the old value or one of the new options. */
  lemma StickyStaysInRange(current: string, options: seq<string>, patterns: seq<string>)
    requires |options| == 3 && |patterns| == 3
    ensures Sticky(current, options, patterns) == current || Sticky(current, options, patterns) in options
  {
  }

  /**
   * Re-selection by tier: the i-th entry of any earlier list is mapped to the i-th
   * entry of the refreshed list, whether or not the text of the entry changed.
   */
  lemma {:induction false} StickyKeepsTier(old_: seq<string>, new_: seq<string>, patterns: seq<string>, i: nat)
    requires |old_| == 3 && |new_| == 3 && |patterns| == 3 && i < 3
    requires Identifies(old_, patterns) && Identifies(new_, patterns)
    ensures Sticky(old_[i], new_, patterns) == new_[i]
  {
    var cur := old_[i];
    assert Contains(cur, patterns[0]) <==> i == 0;
    assert Contains(cur, patterns[1]) <==> i == 1;
    assert Contains(cur, patterns[2]) <==> i == 2;
    // the empty pattern occurs everywhere, so a pattern that some entry lacks is not empty
    var other := (i + 1) % 3;
    assert !Contains(old_[other], patterns[i]);
    assert OccursAt(old_[other], [], 0);
    assert cur != "";
    if cur in new_ {
      var j :| 0 <= j < 3 && new_[j] == cur;
      assert Contains(new_[j], patterns[j]);
    }
  }

  /** The nine facts of `Identifies`, one at a time. */
  lemma IdentifiesIntro(o: seq<string>, p: seq<string>)
    requires |o| == 3 && |p| == 3
    requires Contains(o[0], p[0]) && !Contains(o[0], p[1]) && !Contains(o[0], p[2])
    requires !Contains(o[1], p[0]) && Contains(o[1], p[1]) && !Contains(o[1], p[2])
    requires !Contains(o[2], p[0]) && !Contains(o[2], p[1]) && Contains(o[2], p[2])
    ensures Identifies(o, p)
  {
  }

  // --------------------------------------------------- the labels identify their tier

  /** "Moderate - N threads (45% utilization)" names its own tier only, whatever the digits N. */
  lemma ModerateLabelTier(n: string)
    requires AllDigits(n)
    ensures var l := "Moderate - " + n + " threads (45% utilization)";
      !Contains(l, "Auto") && Contains(l, "Moderate") && !Contains(l, "High")
  {
    var l := "Moderate - " + n + " threads (45% utilization)";
    assert OccursAt(l, "Moderate", 0);
    DigitsExclude(n, 'A');
    DigitsExclude(n, 'H');
    MissingCharExcludes(l, "Auto", 'A');
    MissingCharExcludes(l, "High", 'H');
  }

  /** "High - N threads (90% utilization)" names its own tier only, whatever the digits N. */
  lemma HighLabelTier(n: string)
    requires AllDigits(n)
    ensures var l := "High - " + n + " threads (90% utilization)";
      !Contains(l, "Auto") && !Contains(l, "Moderate") && Contains(l, "High")
  {
    var l := "High - " + n + " threads (90% utilization)";
    assert OccursAt(l, "High", 0);
    DigitsExclude(n, 'A');
    DigitsExclude(n, 'M');
    MissingCharExcludes(l, "Auto", 'A');
    MissingCharExcludes(l, "Moderate", 'M');
  }

  lemma ThreadLabelsIdentify(cores: nat)
    ensures Identifies(ThreadLabels(cores), ThreadPatterns)
  {
    var l := ThreadLabels(cores);
    assert OccursAt(l[0], "Auto", 0);
    MissingCharExcludes(l[0], "Moderate", 'M');
    MissingCharExcludes(l[0], "High", 'H');
    ModerateLabelTier(NatToString(ModerateThreads(cores)));
    HighLabelTier(NatToString(HighThreads(cores)));
    IdentifiesIntro(l, ThreadPatterns);
  }

  /** In a memory label the only '%' ends the tier pattern, so the label contains no other tier's pattern. */
  lemma MemoryLabelPercent(x: nat, pct: string, gb: nat, q: string)
    requires |pct| == 3 && pct[2] == '%' && '%' !in pct[..2]
    requires |q| == 3 && q[2] == '%'
    ensures Contains(MemoryLabel(x, pct, gb), q) <==> q == pct
  {
    var a := NatToString(x);
    var b := NatToString(gb);
    var front := a + " GB (" + pct[..2];
    var back := " of " + b + ".0 GB available)";
    var l := MemoryLabel(x, pct, gb);
    assert l == front + "%" + back by {
      assert pct == pct[..2] + "%";
    }
    DigitsExclude(a, '%');
    DigitsExclude(b, '%');
    assert '%' !in front && '%' !in back;
    assert OccursAt(l, pct, |front| - 2);
    if Contains(l, q) {
      var k :| 0 <= k <= |l| - 3 && OccursAt(l, q, k);
      assert l[k + 2] == q[2];
      assert k + 2 == |front|;
    }
  }

  lemma MemoryLabelsIdentify(gb: nat)
    ensures Identifies(MemoryLabels(gb), MemoryPatterns)
  {
    var l := MemoryLabels(gb);
    var c, b, p := ConservativeGb(gb), BalancedGb(gb), PerformanceGb(gb);
    var p0, p1, p2 := MemoryPatterns[0], MemoryPatterns[1], MemoryPatterns[2];
    MemoryLabelPercent(c, p0, gb, p0); MemoryLabelPercent(c, p0, gb, p1); MemoryLabelPercent(c, p0, gb, p2);
    MemoryLabelPercent(b, p1, gb, p0); MemoryLabelPercent(b, p1, gb, p1); MemoryLabelPercent(b, p1, gb, p2);
    MemoryLabelPercent(p, p2, gb, p0); MemoryLabelPercent(p, p2, gb, p1); MemoryLabelPercent(p, p2, gb, p2);
    IdentifiesIntro(l, MemoryPatterns);
  }

  /** A thread choice survives any change in the core count with its tier intact. */
  lemma ThreadSelectionFollowsTier(before: nat, after: nat, i: nat)
    requires i < 3
    ensures Sticky(ThreadLabels(before)[i], ThreadLabels(after), ThreadPatterns) == ThreadLabels(after)[i]
  {
    ThreadLabelsIdentify(before);
    ThreadLabelsIdentify(after);
    StickyKeepsTier(ThreadLabels(before), ThreadLabels(after), ThreadPatterns, i);
  }

  /** A memory choice survives any change in the available memory with its tier intact. */
  lemma MemorySelectionFollowsTier(before: nat, after: nat, i: nat)
    requires i < 3
    ensures Sticky(MemoryLabels(before)[i], MemoryLabels(after), MemoryPatterns) == MemoryLabels(after)[i]
  {
    MemoryLabelsIdentify(before);
    MemoryLabelsIdentify(after);
    StickyKeepsTier(MemoryLabels(before), MemoryLabels(after), MemoryPatterns, i);
  }
}
