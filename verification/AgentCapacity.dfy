/** How the verification agent divides its configured capacity between jobs. */
module AgentCapacity {
  import opened Options

  const MIN_RAM_MB_PER_JOB := 512

  datatype Config = Config(maxCpu: int, maxRamMb: int, maxDiskGb: int, maxConcurrentJobs: int)

  datatype Capacity = Capacity(
    maxCpu: int, maxRamMb: int, maxDiskGb: int, maxConcurrentJobs: int, cpuPerJob: int, ramMbPerJob: int)
  {
    // The shares are usable, and all concurrent jobs together fit.
    ghost predicate Sound() {
      && 1 <= maxConcurrentJobs && 1 <= cpuPerJob && MIN_RAM_MB_PER_JOB <= ramMbPerJob
      && maxConcurrentJobs * cpuPerJob <= maxCpu
      && maxConcurrentJobs * ramMbPerJob <= maxRamMb
    }
  }

  /** Accepts exactly the configurations in which every job slot gets a CPU and the memory floor, and
      leaves less than one unit per job of either resource undistributed. */
  function DeriveCapacity(c: Config): (r: Option<Capacity>)
    ensures r.Some? <==>
              && 1 <= c.maxConcurrentJobs <= c.maxCpu && 1 <= c.maxDiskGb
              && MIN_RAM_MB_PER_JOB * c.maxConcurrentJobs <= c.maxRamMb
    ensures r.Some? ==>
              && r.value.Sound()
              && r.value.maxCpu == c.maxCpu && r.value.maxRamMb == c.maxRamMb && r.value.maxDiskGb == c.maxDiskGb
              && r.value.maxConcurrentJobs == c.maxConcurrentJobs
              && c.maxCpu < c.maxConcurrentJobs * (r.value.cpuPerJob + 1)
              && c.maxRamMb < c.maxConcurrentJobs * (r.value.ramMbPerJob + 1)
  {
    if c.maxConcurrentJobs < 1 || c.maxCpu < 1 || c.maxDiskGb < 1 || c.maxRamMb < MIN_RAM_MB_PER_JOB then None
    else
      var cpu := c.maxCpu / c.maxConcurrentJobs;
      var ram := c.maxRamMb / c.maxConcurrentJobs;
      Shares(c.maxCpu, c.maxConcurrentJobs, 1);
      Shares(c.maxRamMb, c.maxConcurrentJobs, MIN_RAM_MB_PER_JOB);
      if cpu < 1 || ram < MIN_RAM_MB_PER_JOB then None
      else Some(Capacity(c.maxCpu, c.maxRamMb, c.maxDiskGb, c.maxConcurrentJobs, cpu, ram))
  }

  // An integer share reaches a floor exactly when the floor itself fits for everyone.
  lemma Shares(total: int, n: int, floor: int)
    requires n >= 1
    ensures n * (total / n) <= total < n * (total / n + 1)
    ensures floor <= total / n <==> floor * n <= total
  {
    var q := total / n;
    assert total == n * q + total % n;
    if floor <= q {
      assert floor * n <= q * n;
    } else {
      assert (q + 1) * n <= floor * n;
    }
  }
}
