/**
 * The managed-MySQL resource summary: every host of every cluster of a
 * folder is expanded with the shape of its resource preset, then cores and
 * memory are summed per CPU platform and disk sizes per storage type.
 *
 * The remote calls are replaced by their answers: one answer for the cluster
 * list, one for the preset list, and `listHosts`, the answer for each cluster id.
 */
module MdbMysql {
  import opened Wrappers
  import opened ResourceModel
  import opened Structures

  datatype Cluster = Cluster(id: string)

  /** A preset as the remote lists it. */
  datatype ResourcePreset = ResourcePreset(id: string, cores: int, memory: int)

  datatype HostResources = HostResources(resourcePresetId: string, diskSize: int, diskTypeId: string)

  datatype Host = Host(resources: HostResources)

  // ---------------------------------------------------------------------------
  // Preset resolver
  // ---------------------------------------------------------------------------

  /** The burstable presets, the only ones below a full core. */
  const BurstableIds: set<string> :=
    {"b1.nano", "b2.nano", "b1.micro", "b2.micro", "b1.medium", "b2.medium"}

  /** Guaranteed share of a core, in percent, by preset id. */
  function CoreFractionFor(presetId: string): (f: int8)
    ensures f == 5 || f == 20 || f == 50 || f == 100
    ensures f < 100 <==> presetId in BurstableIds
  {
    match presetId
    case "b1.nano" | "b2.nano" => 5
    case "b1.micro" | "b2.micro" => 20
    case "b1.medium" | "b2.medium" => 50
    case _ => 100
  }

  /** `\w`: an ASCII letter, digit or underscore. */
  predicate IsWordChar(c: char) {
    ('a' <= c <= 'z') || ('A' <= c <= 'Z') || ('0' <= c <= '9') || c == '_'
  }

  /**
   * What the pattern `^\w+d` accepts: `d` stands at some position `k >= 1`
   * and every character before it is a word character.
   */
  ghost predicate MatchesWordsThen(id: string, d: char) {
    exists k :: 1 <= k < |id| && id[k] == d && forall j :: 0 <= j < k ==> IsWordChar(id[j])
  }

  /** Length of the id's leading run of word characters. */
  function LeadingWordRun(id: string): (n: nat)
    ensures n <= |id|
  {
    if id == [] || !IsWordChar(id[0]) then 0 else 1 + LeadingWordRun(id[1..])
  }

  /** The run is made of word characters and stops at the first other character. */
  lemma {:induction false} LeadingWordRunIsRun(id: string)
    ensures forall j :: 0 <= j < LeadingWordRun(id) ==> IsWordChar(id[j])
    ensures LeadingWordRun(id) < |id| ==> !IsWordChar(id[LeadingWordRun(id)])
  {
    if id != [] && IsWordChar(id[0]) {
      LeadingWordRunIsRun(id[1..]);
    }
  }

  /** The scan used for `^\w+d`: `d` occurs after the first character of the leading word run. */
  function HasWordPrefixDigit(id: string, d: char): bool
  {
    var n := LeadingWordRun(id);
    n > 1 && d in id[1..n]
  }

  /** The scan accepts exactly what the pattern accepts. */
  lemma WordPrefixDigitIsPattern(id: string, d: char)
    requires IsWordChar(d)
    ensures HasWordPrefixDigit(id, d) <==> MatchesWordsThen(id, d)
  {
    var n := LeadingWordRun(id);
    LeadingWordRunIsRun(id);
    if HasWordPrefixDigit(id, d) {
      var i :| 0 <= i < n - 1 && id[1..n][i] == d;
      assert id[i + 1] == d;
      assert forall j :: 0 <= j < i + 1 ==> IsWordChar(id[j]);
    }
    if MatchesWordsThen(id, d) {
      var k :| 1 <= k < |id| && id[k] == d && forall j :: 0 <= j < k ==> IsWordChar(id[j]);
      assert k < n;
      assert id[1..n][k - 1] == d;
    }
  }

  /** The platform of a preset: the first of `^\w+1`, `^\w+2`, `^\w+3` that matches. */
  function PlatformFor(presetId: string): string
  {
    if HasWordPrefixDigit(presetId, '1') then "Intel Broadwell"
    else if HasWordPrefixDigit(presetId, '2') then "Intel Cascade Lake"
    else if HasWordPrefixDigit(presetId, '3') then "Intel Ice Lake"
    else ""
  }

  /**
   * The platform is the first of the three names whose pattern matches, in
   * the order of `cpuPlatforms`, and empty when none matches.
   */
  lemma PlatformRule(presetId: string)
    ensures PlatformFor(presetId) == CpuPlatforms[0] <==> MatchesWordsThen(presetId, '1')
    ensures PlatformFor(presetId) == CpuPlatforms[1] <==>
      !MatchesWordsThen(presetId, '1') && MatchesWordsThen(presetId, '2')
    ensures PlatformFor(presetId) == CpuPlatforms[2] <==>
      !MatchesWordsThen(presetId, '1') && !MatchesWordsThen(presetId, '2') && MatchesWordsThen(presetId, '3')
    ensures PlatformFor(presetId) == "" <==>
      !MatchesWordsThen(presetId, '1') && !MatchesWordsThen(presetId, '2') && !MatchesWordsThen(presetId, '3')
  {
    WordPrefixDigitIsPattern(presetId, '1');
    WordPrefixDigitIsPattern(presetId, '2');
    WordPrefixDigitIsPattern(presetId, '3');
  }

  /** The aggregator's record for one listed preset. */
  function ResolvePreset(p: ResourcePreset): MDBResourcePreset
  {
    MDBResourcePreset(p.cores, p.memory, PlatformFor(p.id), CoreFractionFor(p.id))
  }

  /** `b1.nano` is a first-generation burstable preset at 5%. */
  lemma ExampleB1Nano()
    ensures PlatformFor("b1.nano") == "Intel Broadwell" && CoreFractionFor("b1.nano") == 5
  {
    var id := "b1.nano";
    assert LeadingWordRun(id[2..]) == 0;
    assert id[1..][1..] == id[2..];
    assert id[1..2] == ['1'];
  }

  /** `b2.micro` is a second-generation burstable preset at 20%. */
  lemma ExampleB2Micro()
    ensures PlatformFor("b2.micro") == "Intel Cascade Lake" && CoreFractionFor("b2.micro") == 20
  {
    var id := "b2.micro";
    assert LeadingWordRun(id[2..]) == 0;
    assert id[1..][1..] == id[2..];
    assert id[1..2] == ['2'];
  }

  /** `s2.medium` is Cascade Lake at a full core: only `b1`/`b2` presets are fractional. */
  lemma ExampleS2Medium()
    ensures PlatformFor("s2.medium") == "Intel Cascade Lake" && CoreFractionFor("s2.medium") == 100
  {
    var id := "s2.medium";
    assert LeadingWordRun(id[2..]) == 0;
    assert id[1..][1..] == id[2..];
    assert id[1..2] == ['2'];
  }

  /** `m.large` has no digit in its leading word run: no platform, at 100%. */
  lemma ExampleNoPlatform()
    ensures PlatformFor("m.large") == "" && CoreFractionFor("m.large") == 100
  {
    var id := "m.large";
    assert LeadingWordRun(id[1..]) == 0;
  }

  /**
   * An id none of whose word characters after the first is `1`, `2` or `3`
   * gets no platform.
   */
  lemma NoGenerationDigitNoPlatform(presetId: string)
    requires forall k :: 1 <= k < LeadingWordRun(presetId) ==> presetId[k] !in "123"
    ensures PlatformFor(presetId) == ""
  {
    var n := LeadingWordRun(presetId);
    if n > 1 {
      assert forall j :: 0 <= j < n - 1 ==> presetId[1..n][j] == presetId[j + 1];
    }
  }

  /** Reference: the preset table after the loop over the listed presets; a later id overwrites. */
  function PresetTable(ps: seq<ResourcePreset>): map<string, MDBResourcePreset>
  {
    if ps == [] then map[]
    else PresetTable(ps[..|ps| - 1])[ps[|ps| - 1].id := ResolvePreset(ps[|ps| - 1])]
  }

  /** The preset loop of the read function. */
  method BuildPresetTable(presets: seq<ResourcePreset>) returns (table: map<string, MDBResourcePreset>)
    ensures table == PresetTable(presets)
  {
    table := map[];
    for i := 0 to |presets|
      invariant table == PresetTable(presets[..i])
    {
      assert presets[..i + 1][..i] == presets[..i];
      var preset := presets[i];
      var item := MDBResourcePreset(preset.cores, preset.memory, "", 0);
      item := item.(coreFraction := CoreFractionFor(preset.id));
      item := item.(cpuPlatform := PlatformFor(preset.id));
      assert presets[..i + 1][i] == preset;
      table := table[preset.id := item];
    }
    assert presets[..|presets|] == presets;
  }

  /** An id is in the table exactly when some listed preset has it. */
  lemma {:induction false} PresetTableKeys(ps: seq<ResourcePreset>, id: string)
    ensures id in PresetTable(ps) <==> exists i :: 0 <= i < |ps| && ps[i].id == id
  {
    if ps != [] {
      var init := ps[..|ps| - 1];
      PresetTableKeys(init, id);
      assert PresetTable(ps).Keys == PresetTable(init).Keys + {ps[|ps| - 1].id};
      if exists i :: 0 <= i < |init| && init[i].id == id {
        var i :| 0 <= i < |init| && init[i].id == id;
        assert ps[i] == init[i];
      }
      if exists i :: 0 <= i < |ps| && ps[i].id == id {
        var i :| 0 <= i < |ps| && ps[i].id == id;
        if i < |init| {
          assert init[i] == ps[i];
        }
      }
    }
  }

  /** Last write wins: an id maps to the resolved form of the last listed preset with that id. */
  lemma {:induction false} PresetTableLastWins(ps: seq<ResourcePreset>, i: nat)
    requires i < |ps|
    requires forall j :: i < j < |ps| ==> ps[j].id != ps[i].id
    ensures ps[i].id in PresetTable(ps) && PresetTable(ps)[ps[i].id] == ResolvePreset(ps[i])
  {
    if i < |ps| - 1 {
      var init := ps[..|ps| - 1];
      assert init[i] == ps[i];
      PresetTableLastWins(init, i);
    }
  }

  /** `resourcesPreset[id]`: Go's map index yields the zero value for an absent key. */
  function Lookup(table: map<string, MDBResourcePreset>, id: string): MDBResourcePreset
  {
    if id in table then table[id] else ZeroPreset
  }

  // ---------------------------------------------------------------------------
  // Host expansion
  // ---------------------------------------------------------------------------

  /** One host joined with its preset, and its disk under its storage type. */
  function ItemFor(table: map<string, MDBResourcePreset>, host: Host): MDBResourceItem
  {
    var preset := Lookup(table, host.resources.resourcePresetId);
    var item := MDBResourceItem(preset.cpuPlatform, preset.cores, preset.coreFraction, preset.memory, 0, 0);
    match host.resources.diskTypeId
    case "network-hdd" => item.(networkHdd := host.resources.diskSize)
    case "network-ssd" => item.(networkSsd := host.resources.diskSize)
    case _ => item
  }

  /** A host whose preset id was listed gets the shape of the last listed preset with that id. */
  lemma KnownPresetItem(ps: seq<ResourcePreset>, host: Host, i: nat)
    requires i < |ps| && ps[i].id == host.resources.resourcePresetId
    requires forall j :: i < j < |ps| ==> ps[j].id != ps[i].id
    ensures var item := ItemFor(PresetTable(ps), host);
      item.cores == ps[i].cores && item.memory == ps[i].memory
      && item.cpuPlatform == PlatformFor(ps[i].id) && item.coreFraction == CoreFractionFor(ps[i].id)
  {
    PresetTableLastWins(ps, i);
  }

  /** A host whose preset id was not listed gets the zero value: no cores, no memory, no platform. */
  lemma UnknownPresetItem(ps: seq<ResourcePreset>, host: Host)
    requires forall i :: 0 <= i < |ps| ==> ps[i].id != host.resources.resourcePresetId
    ensures var item := ItemFor(PresetTable(ps), host);
      item.cores == 0 && item.memory == 0 && item.coreFraction == 0 && item.cpuPlatform == ""
      && item.cpuPlatform !in CpuPlatforms
  {
    var table := PresetTable(ps);
    PresetTableKeys(ps, host.resources.resourcePresetId);
    assert Lookup(table, host.resources.resourcePresetId) == ZeroPreset;
    ZeroPresetItem(table, host);
  }

  lemma ZeroPresetItem(table: map<string, MDBResourcePreset>, host: Host)
    requires Lookup(table, host.resources.resourcePresetId) == ZeroPreset
    ensures var item := ItemFor(table, host);
      item.cores == 0 && item.memory == 0 && item.coreFraction == 0 && item.cpuPlatform == ""
      && item.cpuPlatform !in CpuPlatforms
  {
  }

  /** The host's disk size lands in the field of its storage type, or in neither. */
  lemma HostDisk(table: map<string, MDBResourcePreset>, host: Host)
    ensures var item := ItemFor(table, host);
      var r := host.resources;
      item.networkHdd == (if r.diskTypeId == "network-hdd" then r.diskSize else 0)
      && item.networkSsd == (if r.diskTypeId == "network-ssd" then r.diskSize else 0)
  {
  }

  /** The items of one cluster's hosts, one per host, in host order. */
  function Items(table: map<string, MDBResourcePreset>, hosts: seq<Host>): seq<MDBResourceItem>
  {
    seq(|hosts|, i requires 0 <= i < |hosts| => ItemFor(table, hosts[i]))
  }

  /** Reference: the items of all clusters in order, or the first failing `ListHosts` answer. */
  function Expansion(table: map<string, MDBResourcePreset>, clusterIds: seq<string>,
                     listHosts: string -> Result<seq<Host>, Error>): Result<seq<MDBResourceItem>, Error>
  {
    if clusterIds == [] then Success([])
    else
      match Expansion(table, clusterIds[..|clusterIds| - 1], listHosts)
      case Failure(e) => Failure(e)
      case Success(items) =>
        match listHosts(clusterIds[|clusterIds| - 1])
        case Failure(e) => Failure(e)
        case Success(hosts) => Success(items + Items(table, hosts))
  }

  /** Reference: the number of hosts listed for the clusters. */
  function HostCount(clusterIds: seq<string>, listHosts: string -> Result<seq<Host>, Error>): nat
  {
    if clusterIds == [] then 0
    else
      var listed := listHosts(clusterIds[|clusterIds| - 1]);
      HostCount(clusterIds[..|clusterIds| - 1], listHosts) + (if listed.Success? then |listed.value| else 0)
  }

  /** The cluster loop of the read function. */
  method ExpandHosts(table: map<string, MDBResourcePreset>, clusterIds: seq<string>,
                     listHosts: string -> Result<seq<Host>, Error>)
    returns (r: Result<seq<MDBResourceItem>, Error>)
    ensures r == Expansion(table, clusterIds, listHosts)
  {
    var result: seq<MDBResourceItem> := [];
    for c := 0 to |clusterIds|
      invariant Expansion(table, clusterIds[..c], listHosts) == Success(result)
    {
      assert clusterIds[..c + 1][..c] == clusterIds[..c];
      var cluster := listHosts(clusterIds[c]);
      if cluster.Failure? {
        ExpansionStops(table, clusterIds, c, listHosts);
        return Failure(cluster.error);
      }
      var hosts := cluster.value;
      ghost var before := result;
      for h := 0 to |hosts|
        invariant result == before + Items(table, hosts[..h])
      {
        assert Items(table, hosts[..h + 1]) == Items(table, hosts[..h]) + [ItemFor(table, hosts[h])];
        result := result + [ItemFor(table, hosts[h])];
      }
      assert hosts[..|hosts|] == hosts;
    }
    assert clusterIds[..|clusterIds|] == clusterIds;
    return Success(result);
  }

  /** Once a prefix of the clusters fails, so does the whole expansion, with the same error. */
  lemma {:induction false} ExpansionStops(table: map<string, MDBResourcePreset>, clusterIds: seq<string>, c: nat,
                                          listHosts: string -> Result<seq<Host>, Error>)
    requires c < |clusterIds| && Expansion(table, clusterIds[..c], listHosts).Success?
    requires listHosts(clusterIds[c]).Failure?
    ensures Expansion(table, clusterIds, listHosts) == Failure(listHosts(clusterIds[c]).error)
    decreases |clusterIds|
  {
    if c + 1 == |clusterIds| {
      assert clusterIds[..|clusterIds| - 1] == clusterIds[..c];
    } else {
      var init := clusterIds[..|clusterIds| - 1];
      assert init[..c] == clusterIds[..c];
      ExpansionStops(table, init, c, listHosts);
    }
  }

  /**
   * The expansion fails exactly when some cluster's `ListHosts` fails, with
   * the first such error; otherwise it yields exactly one item per host.
   */
  lemma {:induction false} ExpansionOutcome(table: map<string, MDBResourcePreset>, clusterIds: seq<string>,
                                            listHosts: string -> Result<seq<Host>, Error>)
    ensures Expansion(table, clusterIds, listHosts).Success? <==>
      forall k :: 0 <= k < |clusterIds| ==> listHosts(clusterIds[k]).Success?
    ensures Expansion(table, clusterIds, listHosts).Failure? ==>
      exists k :: 0 <= k < |clusterIds|
        && listHosts(clusterIds[k]) == Failure(Expansion(table, clusterIds, listHosts).error)
        && forall j :: 0 <= j < k ==> listHosts(clusterIds[j]).Success?
    ensures Expansion(table, clusterIds, listHosts).Success? ==>
      |Expansion(table, clusterIds, listHosts).value| == HostCount(clusterIds, listHosts)
  {
    if clusterIds != [] {
      var init := clusterIds[..|clusterIds| - 1];
      ExpansionOutcome(table, init, listHosts);
      assert forall k :: 0 <= k < |init| ==> init[k] == clusterIds[k];
    }
  }

  // ---------------------------------------------------------------------------
  // Reduction
  // ---------------------------------------------------------------------------

  /** Fractional cores of one item: `coreFraction * cores / 100`. */
  function Share(x: MDBResourceItem): real
  {
    (x.coreFraction as real * x.cores as real) / 100.0
  }

  /** Reference: the items whose platform is exactly `platform`. */
  function OnPlatform(xs: seq<MDBResourceItem>, platform: string): seq<MDBResourceItem>
  {
    if xs == [] then []
    else OnPlatform(xs[..|xs| - 1], platform) + (if xs[|xs| - 1].cpuPlatform == platform then [xs[|xs| - 1]] else [])
  }

  /** Reference: the items on none of the reported platforms. */
  function Unplaced(xs: seq<MDBResourceItem>): seq<MDBResourceItem>
  {
    if xs == [] then []
    else Unplaced(xs[..|xs| - 1]) + (if xs[|xs| - 1].cpuPlatform !in CpuPlatforms then [xs[|xs| - 1]] else [])
  }

  function Cores(xs: seq<MDBResourceItem>): real
  {
    if xs == [] then 0.0 else Cores(xs[..|xs| - 1]) + Share(xs[|xs| - 1])
  }

  function Memory(xs: seq<MDBResourceItem>): int
  {
    if xs == [] then 0 else Memory(xs[..|xs| - 1]) + xs[|xs| - 1].memory
  }

  function SsdTotal(xs: seq<MDBResourceItem>): int
  {
    if xs == [] then 0 else SsdTotal(xs[..|xs| - 1]) + xs[|xs| - 1].networkSsd
  }

  function HddTotal(xs: seq<MDBResourceItem>): int
  {
    if xs == [] then 0 else HddTotal(xs[..|xs| - 1]) + xs[|xs| - 1].networkHdd
  }

  /** Reference: the `cpu` list for the given items. */
  function CpuReport(xs: seq<MDBResourceItem>): seq<CpuEntry>
  {
    seq(|CpuPlatforms|, k requires 0 <= k < |CpuPlatforms| =>
      CpuEntry(CpuPlatforms[k], Cores(OnPlatform(xs, CpuPlatforms[k])), Memory(OnPlatform(xs, CpuPlatforms[k]))))
  }

  /** The platform loop of the read function: filter by platform, then sum. */
  method CpuBuckets(items: seq<MDBResourceItem>) returns (cpu: seq<CpuEntry>)
    ensures |cpu| == |CpuPlatforms|
    ensures forall k :: 0 <= k < |cpu| ==>
      cpu[k].platform == CpuPlatforms[k]
      && cpu[k].cores == Cores(OnPlatform(items, CpuPlatforms[k]))
      && cpu[k].memory == Memory(OnPlatform(items, CpuPlatforms[k]))
    ensures cpu == CpuReport(items)
  {
    cpu := [];
    for k := 0 to |CpuPlatforms|
      invariant |cpu| == k
      invariant forall i :: 0 <= i < k ==> cpu[i] == CpuReport(items)[i]
    {
      var platform := CpuPlatforms[k];
      var filtered: seq<MDBResourceItem> := [];
      for j := 0 to |items|
        invariant filtered == OnPlatform(items[..j], platform)
      {
        assert items[..j + 1][..j] == items[..j];
        if items[j].cpuPlatform == platform {
          filtered := filtered + [items[j]];
        }
      }
      assert items[..|items|] == items;
      var totalCores: real, totalMemory: int := 0.0, 0;
      for j := 0 to |filtered|
        invariant totalCores == Cores(filtered[..j]) && totalMemory == Memory(filtered[..j])
      {
        assert filtered[..j + 1][..j] == filtered[..j];
        totalCores := totalCores + Share(filtered[j]);
        totalMemory := totalMemory + filtered[j].memory;
      }
      assert filtered[..|filtered|] == filtered;
      cpu := cpu + [CpuEntry(platform, totalCores, totalMemory)];
    }
  }

  /** The storage loop of the read function: every item counts, whatever its platform. */
  method StorageTotals(items: seq<MDBResourceItem>) returns (ssd: int, hdd: int)
    ensures ssd == SsdTotal(items) && hdd == HddTotal(items)
  {
    ssd, hdd := 0, 0;
    for j := 0 to |items|
      invariant ssd == SsdTotal(items[..j]) && hdd == HddTotal(items[..j])
    {
      assert items[..j + 1][..j] == items[..j];
      hdd := hdd + items[j].networkHdd;
      ssd := ssd + items[j].networkSsd;
    }
    assert items[..|items|] == items;
  }

  lemma SumsAppend(xs: seq<MDBResourceItem>, x: MDBResourceItem)
    ensures Memory(xs + [x]) == Memory(xs) + x.memory
    ensures Cores(xs + [x]) == Cores(xs) + Share(x)
  {
    assert (xs + [x])[..|xs + [x]| - 1] == xs;
  }

  /** Appending one item to a bucket's input. */
  lemma BucketStep(xs: seq<MDBResourceItem>, x: MDBResourceItem, platform: string)
    ensures x.cpuPlatform == platform ==>
      Memory(OnPlatform(xs + [x], platform)) == Memory(OnPlatform(xs, platform)) + x.memory
      && Cores(OnPlatform(xs + [x], platform)) == Cores(OnPlatform(xs, platform)) + Share(x)
    ensures x.cpuPlatform != platform ==> OnPlatform(xs + [x], platform) == OnPlatform(xs, platform)
  {
    assert (xs + [x])[..|xs + [x]| - 1] == xs;
    SumsAppend(OnPlatform(xs, platform), x);
  }

  lemma UnplacedStep(xs: seq<MDBResourceItem>, x: MDBResourceItem)
    ensures x.cpuPlatform !in CpuPlatforms ==>
      Memory(Unplaced(xs + [x])) == Memory(Unplaced(xs)) + x.memory
      && Cores(Unplaced(xs + [x])) == Cores(Unplaced(xs)) + Share(x)
    ensures x.cpuPlatform in CpuPlatforms ==> Unplaced(xs + [x]) == Unplaced(xs)
  {
    assert (xs + [x])[..|xs + [x]| - 1] == xs;
    SumsAppend(Unplaced(xs), x);
  }

  /**
   * Every item lands in exactly one platform bucket or in none: the buckets
   * and the unplaced items together account for all memory.
   */
  lemma {:induction false} MemoryPartition(xs: seq<MDBResourceItem>)
    ensures Memory(OnPlatform(xs, CpuPlatforms[0])) + Memory(OnPlatform(xs, CpuPlatforms[1]))
          + Memory(OnPlatform(xs, CpuPlatforms[2])) + Memory(Unplaced(xs)) == Memory(xs)
  {
    if xs != [] {
      var init, x := xs[..|xs| - 1], xs[|xs| - 1];
      assert xs == init + [x];
      MemoryPartition(init);
      BucketStep(init, x, CpuPlatforms[0]);
      BucketStep(init, x, CpuPlatforms[1]);
      BucketStep(init, x, CpuPlatforms[2]);
      UnplacedStep(init, x);
      SumsAppend(init, x);
      PlatformCases(x.cpuPlatform);
    }
  }

  /** The same partition for the fractional cores. */
  lemma {:induction false} CoresPartition(xs: seq<MDBResourceItem>)
    ensures Cores(OnPlatform(xs, CpuPlatforms[0])) + Cores(OnPlatform(xs, CpuPlatforms[1]))
          + Cores(OnPlatform(xs, CpuPlatforms[2])) + Cores(Unplaced(xs)) == Cores(xs)
  {
    if xs != [] {
      var init, x := xs[..|xs| - 1], xs[|xs| - 1];
      assert xs == init + [x];
      CoresPartition(init);
      BucketStep(init, x, CpuPlatforms[0]);
      BucketStep(init, x, CpuPlatforms[1]);
      BucketStep(init, x, CpuPlatforms[2]);
      UnplacedStep(init, x);
      SumsAppend(init, x);
      PlatformCases(x.cpuPlatform);
    }
  }

  /** A platform is one of the three, or none of them. */
  lemma PlatformCases(p: string)
    ensures p == CpuPlatforms[0] ==> p != CpuPlatforms[1] && p != CpuPlatforms[2] && p in CpuPlatforms
    ensures p == CpuPlatforms[1] ==> p != CpuPlatforms[2] && p in CpuPlatforms
    ensures p == CpuPlatforms[2] ==> p in CpuPlatforms
    ensures p != CpuPlatforms[0] && p != CpuPlatforms[1] && p != CpuPlatforms[2] ==> p !in CpuPlatforms
  {
  }

  /** Reference: summed disk size of the hosts whose disk has the given type. */
  function DiskOfType(hosts: seq<Host>, diskType: string): int
  {
    if hosts == [] then 0
    else
      var last := hosts[|hosts| - 1].resources;
      DiskOfType(hosts[..|hosts| - 1], diskType) + (if last.diskTypeId == diskType then last.diskSize else 0)
  }

  /** Storage totals depend on the hosts' disks only, never on presets or platforms. */
  lemma {:induction false} StorageFromDisks(table: map<string, MDBResourcePreset>, hosts: seq<Host>)
    ensures HddTotal(Items(table, hosts)) == DiskOfType(hosts, "network-hdd")
    ensures SsdTotal(Items(table, hosts)) == DiskOfType(hosts, "network-ssd")
  {
    if hosts != [] {
      var init := hosts[..|hosts| - 1];
      StorageFromDisks(table, init);
      assert Items(table, hosts)[..|hosts| - 1] == Items(table, init);
    }
  }

  // ---------------------------------------------------------------------------
  // The read function
  // ---------------------------------------------------------------------------

  /**
   * `dataSourceYandexResourcesMdbMySqlContentRead`. `folder` is the outcome
   * of the folder-id lookup, `clusters` and `presets` the answers to the two
   * list calls and `listHosts` the answer to `ListHosts` per cluster id.
   */
  method ContentRead(d: ResourceData, folder: Result<string, Error>,
                     clusters: Result<seq<Cluster>, Error>, presets: Result<seq<ResourcePreset>, Error>,
                     listHosts: string -> Result<seq<Host>, Error>)
    returns (err: Option<Error>)
    modifies d
    ensures folder.Failure? ==> err == Some(FolderLookup(folder.error)) && d.Snap() == old(d.Snap())
    ensures folder.Success? && clusters.Failure? ==> err == Some(clusters.error) && d.Snap() == old(d.Snap())
    ensures folder.Success? && clusters.Success? && presets.Failure? ==>
      err == Some(presets.error) && d.Snap() == old(d.Snap())
    ensures folder.Success? && clusters.Success? && presets.Success? ==>
      var ids := seq(|clusters.value|, i requires 0 <= i < |clusters.value| => clusters.value[i].id);
      var expansion := Expansion(PresetTable(presets.value), ids, listHosts);
      if expansion.Failure? then err == Some(expansion.error) && d.Snap() == old(d.Snap())
      else
        var items := expansion.value;
        var v0 := old(d.values);
        var v1 := v0["network_ssd" := Int(SsdTotal(items))];
        var v2 := v1["network_hdd" := Int(HddTotal(items))];
        var v3 := v2["folder_id" := Str(folder.value)];
        var v4 := v3["cpu" := CpuList(CpuReport(items))];
        d.id == folder.value &&
        if "network_ssd" in d.rejects then err == Some(SetRejected("network_ssd")) && d.values == v0
        else if "network_hdd" in d.rejects then err == Some(SetRejected("network_hdd")) && d.values == v1
        else if "folder_id" in d.rejects then err == Some(SetRejected("folder_id")) && d.values == v2
        else if "cpu" in d.rejects then err == Some(SetRejected("cpu")) && d.values == v3
        else err == None && d.values == v4
  {
    if folder.Failure? {
      return Some(FolderLookup(folder.error));
    }
    var folderId := folder.value;

    if clusters.Failure? {
      return Some(clusters.error);
    }
    var clusterIds: seq<string> := [];
    for i := 0 to |clusters.value|
      invariant clusterIds == seq(i, j requires 0 <= j < i => clusters.value[j].id)
    {
      clusterIds := clusterIds + [clusters.value[i].id];
    }

    if presets.Failure? {
      return Some(presets.error);
    }
    var resourcesPreset := BuildPresetTable(presets.value);

    var expanded := ExpandHosts(resourcesPreset, clusterIds, listHosts);
    if expanded.Failure? {
      return Some(expanded.error);
    }
    var result := expanded.value;

    d.SetId(folderId);
    var cpu := CpuBuckets(result);
    var ssd, hdd := StorageTotals(result);

    err := d.Set("network_ssd", Int(ssd));
    if err.Some? {
      return;
    }
    err := d.Set("network_hdd", Int(hdd));
    if err.Some? {
      return;
    }
    err := d.Set("folder_id", Str(folderId));
    if err.Some? {
      return;
    }
    err := d.Set("cpu", CpuList(cpu));
  }
}
