/**
 * The hosts and VMs the integration hands to the simulator, as plain
 * records: a host is its list of processing elements (each a MIPS rating)
 * with RAM, bandwidth and storage; a VM is its MIPS rating, cores, RAM,
 * bandwidth and image size. The simulator objects themselves are not part
 * of this model.
 */
module Infrastructure {
  import opened JavaNumeric
  import opened Scaling

  /** A host: one MIPS rating per processing element, RAM in MB, bandwidth, storage. */
  datatype HostSpec = HostSpec(pes: seq<int>, ram: int, bw: int, storage: int)

  /** A VM: MIPS rating, cores, RAM in MB, bandwidth, image size. */
  datatype VmSpec = VmSpec(mips: int, cores: int, ram: int, bw: int, size: int)

  /** `n` processing elements of `mips` each (none when `n` <= 0). */
  function PeList(n: int, mips: int): (r: seq<int>)
    ensures |r| == if n < 0 then 0 else n
    ensures forall i :: 0 <= i < |r| ==> r[i] == mips
  {
    if n <= 0 then [] else PeList(n - 1, mips) + [mips]
  }

  /** `createPeList(n, mips)`: appends `n` processing elements of `mips` each. */
  method CreatePeList(numberOfPes: int, mips: int) returns (pes: seq<int>)
    ensures pes == PeList(numberOfPes, mips)
  {
    pes := [];
    var i := 0;
    while i < numberOfPes
      invariant 0 <= i && (numberOfPes >= 0 ==> i <= numberOfPes) && (numberOfPes < 0 ==> i == 0)
      invariant pes == PeList(i, mips)
    {
      pes := pes + [mips];
      i := i + 1;
    }
  }

  /**
   * The three hosts `createDatacenter` builds for a datacenter scale: an
   * application host (64 GB), an API host (32 GB) and a CDN host (16 GB,
   * high bandwidth) with a fixed 8 cores.
   */
  function PlannedHosts(scale: real): (r: seq<HostSpec>)
    ensures |r| == 3
    ensures |r[0].pes| >= 16 && |r[1].pes| >= 12 && |r[2].pes| == 8
    ensures r[0].ram + r[1].ram + r[2].ram == 114688
  {
    [HostSpec(PeList(Host1Cores(scale), 2800), 65536, 25000, 500000),
     HostSpec(PeList(Host2Cores(scale), 2500), 32768, 20000, 300000),
     HostSpec(PeList(Host3Cores, 2000), 16384, 50000, 1000000)]
  }

  /** Total processing elements over a list of hosts. */
  function TotalCores(hosts: seq<HostSpec>): nat {
    if hosts == [] then 0 else TotalCores(hosts[..|hosts| - 1]) + |hosts[|hosts| - 1].pes|
  }

  /** Total RAM over a list of hosts. */
  function TotalRam(hosts: seq<HostSpec>): int {
    if hosts == [] then 0 else TotalRam(hosts[..|hosts| - 1]) + hosts[|hosts| - 1].ram
  }

  /** Totals over three hosts. */
  lemma TotalsOfThree(a: HostSpec, b: HostSpec, c: HostSpec)
    ensures TotalCores([a, b, c]) == |a.pes| + |b.pes| + |c.pes|
    ensures TotalRam([a, b, c]) == a.ram + b.ram + c.ram
  {
    assert [a, b, c][..2] == [a, b];
    assert [a, b][..1] == [a];
    assert [a][..0] == [];
    assert TotalCores([a]) == |a.pes| && TotalRam([a]) == a.ram;
    assert TotalCores([a, b]) == |a.pes| + |b.pes| && TotalRam([a, b]) == a.ram + b.ram;
  }

  /**
   * The capacity line the datacenter reports: at least 16 + 12 + 8 = 36
   * cores whatever the telemetry, exactly 32 + 20 + 8 = 60 without real
   * data, and always 64 + 32 + 16 GB of RAM.
   */
  lemma DatacenterCapacity(useRealData: bool, metrics: map<string, real>)
    ensures var hosts := PlannedHosts(DatacenterScale(useRealData, metrics));
            && TotalCores(hosts) == Host1Cores(DatacenterScale(useRealData, metrics))
                                    + Host2Cores(DatacenterScale(useRealData, metrics)) + Host3Cores
            && TotalCores(hosts) >= 36
            && TotalRam(hosts) == 114688
    ensures !useRealData ==> TotalCores(PlannedHosts(DatacenterScale(useRealData, metrics))) == 60
  {
    var hosts := PlannedHosts(DatacenterScale(useRealData, metrics));
    TotalsOfThree(hosts[0], hosts[1], hosts[2]);
    assert hosts == [hosts[0], hosts[1], hosts[2]];
    if !useRealData {
      DefaultHostCores(metrics);
    }
  }

  /** Bandwidth of VM role `i`. */
  function VmBw(i: int): int {
    1200 + i * 400
  }

  /** Image size of VM role `i`. */
  function VmSize(i: int): int {
    12000 + i * 8000
  }

  /** The VM `createVMs` builds for role `i` from the current sizes of that role. */
  function PlannedVm(i: int, useRealData: bool, metrics: map<string, real>, cores: int, ram: int): VmSpec {
    VmSpec(VmMips(i, useRealData, metrics), cores, ram, VmBw(i), VmSize(i))
  }

  /**
   * With the sizes the adjustment produced, VM role `i` has between half
   * and two and a half times its base cores, at least 1024 MB of RAM, and
   * a MIPS rating that is the role's base rating without real data and
   * between half and 2.2 times it with real data.
   */
  lemma PlannedVmBounds(i: nat, useRealData: bool, metrics: map<string, real>)
    requires i < VmRoles
    ensures var f := AdjustmentFactors(metrics);
            var vm := PlannedVm(i, useRealData, metrics, AdjustedCores(BaseVmCores[i], f.cpu),
                                AdjustedRam(BaseVmRam[i], f.response, f.load));
            && BaseVmCores[i] / 2 <= vm.cores <= BaseVmCores[i] * 5 / 2
            && vm.ram >= 1024
            && (!useRealData ==> vm.mips == BaseMips(i))
            && (useRealData ==> 1100 + 300 * i <= vm.mips <= 4840 + 1320 * i)
            && vm.bw == 1200 + 400 * i && vm.size == 12000 + 8000 * i
  {
    VmSizeBounds(i, AdjustmentFactors(metrics));
    if useRealData {
      VmMipsBounds(i, metrics);
    }
  }
}
