/**
 * System probing as the scripts see it. The operating-system calls
 * (`os.cpu_count()`, `psutil.cpu_count()`, `psutil.virtual_memory()`) are
 * inputs here; what is modelled is how their answers, or their failure, become
 * the numbers the tools work with: the fallbacks, the clamps and the 90% rule.
 */
module Capabilities {
  import opened Wrappers
  import opened Labels

  const GiB: nat := 1073741824

  /** What `os.cpu_count()` gave: a count, None, or an exception. */
  datatype CoreProbe = CpuCount(count: Option<nat>) | CoreProbeRaises

  /** What `psutil.virtual_memory().available` gave, in bytes, or an exception. */
  datatype MemoryProbe = AvailableBytes(bytes: nat) | MemoryProbeRaises

  /**
   * `max(1, os.cpu_count() or 4)`, and 4 when the call raises: the validators'
   * `_cpu_cores` and the module-level `get_cpu_cores`. A count of 0 is falsy and
   * also falls back to 4.
   */
  function DetectedCores(probe: CoreProbe): (n: nat)
    ensures n >= 1
    ensures probe.CpuCount? && probe.count.Some? && probe.count.value >= 1 ==> n == probe.count.value
    ensures !(probe.CpuCount? && probe.count.Some? && probe.count.value >= 1) ==> n == 4
  {
    match probe
    case CoreProbeRaises => 4
    case CpuCount(c) => Max(1, if c.Some? && c.value != 0 then c.value else 4)
  }

  /**
   * `max(2, int(available / 1024**3))`, and 8 when the probe raises: `_avail_mem_gb`
   * and `get_available_memory_gb`. Dividing by a power of two is exact, so the
   * truncation is the integer quotient.
   */
  function DetectedMemoryGb(probe: MemoryProbe): (g: nat)
    ensures g >= 2
    ensures probe.AvailableBytes? ==> g == Max(2, probe.bytes / GiB)
    ensures probe.MemoryProbeRaises? ==> g == 8
  {
    match probe
    case MemoryProbeRaises => 8
    case AvailableBytes(b) => Max(2, b / GiB)
  }

  // ------------------------------------------------------------------ the psutil capability dict (v0.2.x)

  /** What psutil reported: `cpu_count(logical=True)` and `virtual_memory().total`; or psutil is missing; or a call raised. */
  datatype PsutilProbe = Psutil(logicalCpus: Option<nat>, totalBytes: nat) | PsutilMissing | PsutilRaises

  datatype SystemCaps = SystemCaps(cpuCount: nat, memoryGb: nat, maxThreads: nat, maxMemoryGb: nat)

  /** The fallback returned when psutil is missing or raises. */
  const FallbackCaps := SystemCaps(4, 8, 3, 7)

  /** Python's `round(bytes / 1024**3)`: to the nearest whole GB, ties to the even neighbour. */
  function RoundGb(bytes: nat): (g: nat)
    ensures 2 * bytes <= (2 * g + 1) * GiB && (2 * g - 1) * GiB <= 2 * bytes
  {
    var q, r := bytes / GiB, bytes % GiB;
    if 2 * r > GiB then q + 1
    else if 2 * r < GiB then q
    else if q % 2 == 0 then q else q + 1
  }

  /**
   * `get_system_capabilities` (toolboxes v0.2.1, v0.2.3, v0.2.4) and
   * `ToolValidator._get_system_capabilities` (validator v0.2.3): the 90% rule.
   */
  function SystemCapabilities(probe: PsutilProbe): (caps: SystemCaps)
    ensures caps.cpuCount >= 1 && 1 <= caps.maxThreads <= caps.cpuCount
    ensures caps.maxMemoryGb >= 1 && (caps.memoryGb >= 1 ==> caps.maxMemoryGb <= caps.memoryGb)
    ensures caps.maxThreads * 10 <= Max(10, caps.cpuCount * 9) < (caps.maxThreads + 1) * 10
    ensures caps.maxMemoryGb * 10 <= Max(10, caps.memoryGb * 9) < (caps.maxMemoryGb + 1) * 10
    ensures probe.Psutil? && probe.logicalCpus.Some? && probe.logicalCpus.value >= 1 ==>
      caps.cpuCount == probe.logicalCpus.value
    ensures probe.Psutil? && !(probe.logicalCpus.Some? && probe.logicalCpus.value >= 1) ==> caps.cpuCount == 4
    ensures probe.Psutil? ==> caps.memoryGb == RoundGb(probe.totalBytes)
    ensures !probe.Psutil? ==> caps == FallbackCaps
  {
    match probe
    case Psutil(cpus, total) =>
      var c := if cpus.Some? && cpus.value != 0 then cpus.value else 4;
      var m := RoundGb(total);
      SystemCaps(c, m, Max(1, Pct(c, 90)), Max(1, Pct(m, 90)))
    case _ => FallbackCaps
  }

  /** The capability dict as the option builders read it with `.get(key, default)`. */
  function CapsDict(caps: SystemCaps): map<string, nat>
  {
    map["cpu_count" := caps.cpuCount, "memory_gb" := caps.memoryGb,
        "max_threads" := caps.maxThreads, "max_memory_gb" := caps.maxMemoryGb]
  }

  /** A 16-core machine with 32 GiB gets 14 threads and 28 GB. */
  lemma CapabilitiesExample()
    ensures SystemCapabilities(Psutil(Some(16), 32 * GiB)) == SystemCaps(16, 32, 14, 28)
  {
    assert RoundGb(32 * GiB) == 32;
  }

  // ------------------------------------------------------------------ the capability tuple (v0.1.x)

  /** What `os.cpu_count()` and `psutil.virtual_memory()` gave to the v0.1 toolboxes, or an exception. */
  datatype HostProbe = HostInfo(cpuCount: Option<nat>, totalBytes: nat, availableBytes: nat) | HostRaises

  /** `(cpu_cores, total_memory_gb, available_memory_gb)`. */
  datatype Resources = Resources(cpuCores: nat, totalGb: real, availableGb: real)

  /** The tuple returned when detection raises. */
  const FallbackResources := Resources(4, 16.0, 8.0)

  /**
   * `get_system_capabilities` of toolboxes v0.1.3 and v0.1.4: the counts, with
   * memory in (fractional) GB, and `(4, 16.0, 8.0)` when a probe raises.
   */
  function HostResources(probe: HostProbe): (r: Resources)
    ensures r.cpuCores >= 1 && r.totalGb >= 0.0 && r.availableGb >= 0.0
    ensures probe.HostRaises? ==> r == FallbackResources
    ensures probe.HostInfo? && probe.cpuCount.Some? && probe.cpuCount.value >= 1 ==> r.cpuCores == probe.cpuCount.value
    ensures probe.HostInfo? && !(probe.cpuCount.Some? && probe.cpuCount.value >= 1) ==> r.cpuCores == 4
    ensures probe.HostInfo? ==> r.availableGb * GiB as real == probe.availableBytes as real
    ensures probe.HostInfo? ==> r.totalGb * GiB as real == probe.totalBytes as real
  {
    match probe
    case HostRaises => FallbackResources
    case HostInfo(cpus, total, avail) =>
      Resources(if cpus.Some? && cpus.value != 0 then cpus.value else 4,
                total as real / GiB as real, avail as real / GiB as real)
  }
}
