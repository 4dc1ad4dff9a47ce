/**
 * The compute resource summary: disks and instances of a folder are listed
 * page by page, disk sizes are summed per storage type and the cores and
 * memory of running instances are summed per CPU platform.
 *
 * The remote `List` calls are replaced by the sequence of answers the remote
 * gives: the i-th call of a pager receives `rs[i]`.
 */
module ComputeCloud {
  import opened Wrappers
  import opened ResourceModel
  import Structures

  /** Page size of every disk and instance `List` request. */
  const DisksLimit := 1000
  const InstancesLimit := 1000

  datatype Disk = Disk(typeId: string, size: int)

  datatype InstanceStatus =
    | StatusUnspecified | Provisioning | Running | Stopping | Stopped
    | Starting | Restarting | Updating | InError | Crashed | Deleting

  datatype InstanceResources = InstanceResources(cores: int, coreFraction: int, memory: int)

  datatype Instance = Instance(platformId: string, status: InstanceStatus, resources: InstanceResources)

  /** What a pager sends: folder, page size and the page token. */
  datatype ListRequest = ListRequest(folderId: string, pageSize: int, pageToken: string)

  datatype Page<T> = Page(items: seq<T>, nextPageToken: string)

  /** The remote's answer to one `List` request. */
  datatype Response<T> = Listed(page: Page<T>) | ListFailed(err: Error)

  /** What a pager returns (items and error), with the requests it sent. */
  datatype Loaded<T> = Loaded(items: seq<T>, err: Option<Error>, requests: seq<ListRequest>)

  // ---------------------------------------------------------------------------
  // Pager
  // ---------------------------------------------------------------------------

  /**
   * A page that comes back exactly full makes a pager ask for the next one.
   * Both pagers compare against the disk limit (the two limits are equal).
   */
  predicate Full<T>(r: Response<T>) {
    r.Listed? && |r.page.items| == DisksLimit
  }

  /**
   * The remote's answers end with one that stops the pager (a failure or a
   * page that is not full). Without such an answer the pager never returns.
   */
  predicate Ends<T>(rs: seq<Response<T>>) {
    |rs| > 0 && !Full(rs[|rs| - 1])
  }

  /** Index of the answer at which the pager stops. */
  function FirstStop<T>(rs: seq<Response<T>>): (n: nat)
    requires Ends(rs)
    ensures n < |rs| && !Full(rs[n])
  {
    if !Full(rs[0]) then 0 else 1 + FirstStop(rs[1..])
  }

  /** Every answer before the stopping one is a full page. */
  lemma {:induction false} BeforeStopFull<T>(rs: seq<Response<T>>, i: nat)
    requires Ends(rs) && i < FirstStop(rs)
    ensures Full(rs[i])
  {
    if i > 0 {
      BeforeStopFull(rs[1..], i - 1);
    }
  }

  /** The per-page copy loop: the page's items that `keep` accepts, in page order. */
  function Kept<T>(items: seq<T>, keep: T -> bool): (r: seq<T>)
    ensures |r| <= |items|
    ensures forall i :: 0 <= i < |r| ==> r[i] in items && keep(r[i])
    ensures forall i :: 0 <= i < |items| && keep(items[i]) ==> items[i] in r
  {
    if items == [] then []
    else (if keep(items[0]) then [items[0]] else []) + Kept(items[1..], keep)
  }

  /** Reference: the kept items of the listed pages among `rs`, in page order. */
  function Gathered<T>(rs: seq<Response<T>>, keep: T -> bool): (r: seq<T>)
    ensures forall i :: 0 <= i < |r| ==> keep(r[i])
  {
    if rs == [] then []
    else (if rs[0].Listed? then Kept(rs[0].page.items, keep) else []) + Gathered(rs[1..], keep)
  }

  /** Reference: all items of the listed pages among `rs`, in page order. */
  function Pages<T>(rs: seq<Response<T>>): seq<T>
  {
    if rs == [] then []
    else (if rs[0].Listed? then rs[0].page.items else []) + Pages(rs[1..])
  }

  lemma {:induction false} GatheredAppend<T>(a: seq<Response<T>>, b: seq<Response<T>>, keep: T -> bool)
    ensures Gathered(a + b, keep) == Gathered(a, keep) + Gathered(b, keep)
  {
    if a == [] {
      assert a + b == b;
    } else {
      assert (a + b)[1..] == a[1..] + b;
      GatheredAppend(a[1..], b, keep);
    }
  }

  /**
   * The recursive pager shared by `yandexResourcesComputeCloudLoadDisks` and
   * `yandexResourcesComputeCloudLoadInstances`; `keep` is the per-item filter.
   * Requests always ask for `pageSize` items and chain the returned page tokens;
   * the items are the kept items of every page up to the stopping one; an
   * error is returned only when it comes from the first answer, or when every
   * page after the first one yielded no kept item.
   */
  function Load<T>(folderId: string, pageSize: int, token: string, rs: seq<Response<T>>, keep: T -> bool): (r: Loaded<T>)
    requires Ends(rs)
    ensures |r.requests| == FirstStop(rs) + 1
    ensures Chained(folderId, pageSize, token, rs, r.requests)
    ensures r.items == Gathered(rs[..FirstStop(rs) + 1], keep)
    ensures r.err ==
      if rs[FirstStop(rs)].ListFailed? && (FirstStop(rs) == 0 || Gathered(rs[1..FirstStop(rs)], keep) == [])
      then Some(rs[FirstStop(rs)].err)
      else None
    decreases |rs|
  {
    var request := ListRequest(folderId, pageSize, token);
    match rs[0]
    case ListFailed(e) =>
      Loaded([], Some(e), [request])
    case Listed(page) =>
      var mine := Kept(page.items, keep);
      if |page.items| == DisksLimit then
        var next := Load(folderId, pageSize, page.nextPageToken, rs[1..], keep);
        var requests := [request] + next.requests;
        LoadStep(rs, keep);
        LoadStepFailed(rs, FirstStop(rs), FirstStop(rs[1..]), keep);
        LoadStepTail(rs, FirstStop(rs), FirstStop(rs[1..]), keep);
        ChainStep(folderId, pageSize, token, rs, next.requests);
        if |next.items| > 0 then Loaded(mine + next.items, None, requests)
        else if next.err.Some? then Loaded(mine, next.err, requests)
        else Loaded(mine, None, requests)
      else
        assert rs[..1] == [rs[0]];
        Loaded(mine, None, [request])
  }

  /**
   * The requests a pager sends: each asks the folder for `pageSize` items;
   * the first carries `token`, every later one the token returned with the
   * page before it.
   */
  predicate Chained<T>(folderId: string, pageSize: int, token: string, rs: seq<Response<T>>, requests: seq<ListRequest>)
  {
    |requests| > 0
    && requests[0] == ListRequest(folderId, pageSize, token)
    && |requests| <= |rs|
    && forall j :: 0 <= j < |requests| - 1 ==>
         rs[j].Listed? && requests[j + 1] == ListRequest(folderId, pageSize, rs[j].page.nextPageToken)
  }

  lemma ChainStep<T>(folderId: string, pageSize: int, token: string, rs: seq<Response<T>>, rest: seq<ListRequest>)
    requires |rs| > 0 && rs[0].Listed?
    requires Chained(folderId, pageSize, rs[0].page.nextPageToken, rs[1..], rest)
    ensures Chained(folderId, pageSize, token, rs, [ListRequest(folderId, pageSize, token)] + rest)
  {
    var requests := [ListRequest(folderId, pageSize, token)] + rest;
    forall j | 0 <= j < |requests| - 1
      ensures rs[j].Listed? && requests[j + 1] == ListRequest(folderId, pageSize, rs[j].page.nextPageToken)
    {
      assert requests[j + 1] == rest[j];
      if j > 0 {
        assert rs[1..][j - 1] == rs[j];
      }
    }
    assert Chained(folderId, pageSize, token, rs, requests);
  }

  /** How the reference functions split at the first, full page. */
  lemma LoadStep<T>(rs: seq<Response<T>>, keep: T -> bool)
    requires Ends(rs) && Full(rs[0])
    ensures FirstStop(rs) == FirstStop(rs[1..]) + 1
    ensures Gathered(rs[..FirstStop(rs) + 1], keep)
         == Kept(rs[0].page.items, keep) + Gathered(rs[1..][..FirstStop(rs[1..]) + 1], keep)
  {
    var n := FirstStop(rs);
    var m := FirstStop(rs[1..]);
    assert n == m + 1;
    StepHead(rs[..n + 1], rs[1..][..m + 1], keep);
  }

  /** When the stopping answer is a failure, the continuation's items are those of the pages before it. */
  lemma LoadStepFailed<T>(rs: seq<Response<T>>, n: nat, m: nat, keep: T -> bool)
    requires n == m + 1 && n < |rs|
    ensures rs[n].ListFailed? ==> Gathered(rs[1..n], keep) == Gathered(rs[1..][..m + 1], keep)
  {
    if rs[n].ListFailed? {
      assert rs[1..][..m + 1] == rs[1..n] + [rs[n]];
      FailedLast(rs[1..n], rs[n], keep);
    }
  }

  /** The pages strictly after the first one, split at their own first page. */
  lemma LoadStepTail<T>(rs: seq<Response<T>>, n: nat, m: nat, keep: T -> bool)
    requires n == m + 1 && n < |rs| && (m > 0 ==> rs[1].Listed?)
    ensures m > 0 ==> Gathered(rs[1..n], keep) == Kept(rs[1].page.items, keep) + Gathered(rs[1..][1..m], keep)
  {
    if m > 0 {
      assert rs[1..n][1..] == rs[1..][1..m];
      StepHead(rs[1..n], rs[1..][1..m], keep);
    }
  }

  /** Gathering a non-empty run of answers whose first one is listed. */
  lemma StepHead<T>(head: seq<Response<T>>, tail: seq<Response<T>>, keep: T -> bool)
    requires |head| > 0 && head[0].Listed? && head[1..] == tail
    ensures Gathered(head, keep) == Kept(head[0].page.items, keep) + Gathered(tail, keep)
  {
  }

  /** A failed answer at the end adds no items. */
  lemma FailedLast<T>(a: seq<Response<T>>, x: Response<T>, keep: T -> bool)
    requires x.ListFailed?
    ensures Gathered(a + [x], keep) == Gathered(a, keep)
  {
    GatheredAppend(a, [x], keep);
    assert Gathered([x], keep) == [];
  }

  predicate AnyDisk(x: Disk) { true }

  predicate IsRunning(x: Instance) { x.status == Running }

  lemma {:induction false} KeptAll(items: seq<Disk>)
    ensures Kept(items, AnyDisk) == items
  {
    if items != [] {
      KeptAll(items[1..]);
    }
  }

  lemma {:induction false} GatheredAll(rs: seq<Response<Disk>>)
    ensures Gathered(rs, AnyDisk) == Pages(rs)
  {
    if rs != [] {
      if rs[0].Listed? {
        KeptAll(rs[0].page.items);
      }
      GatheredAll(rs[1..]);
    }
  }

  /**
   * `yandexResourcesComputeCloudLoadDisks`: every disk of every page, no
   * filter. Its error follows `Load`'s rule.
   */
  function LoadDisks(folderId: string, token: string, rs: seq<Response<Disk>>): (r: Loaded<Disk>)
    requires Ends(rs)
    ensures Chained(folderId, DisksLimit, token, rs, r.requests) && |r.requests| == FirstStop(rs) + 1
    ensures r.items == Pages(rs[..FirstStop(rs) + 1])
  {
    GatheredAll(rs[..FirstStop(rs) + 1]);
    Load(folderId, DisksLimit, token, rs, AnyDisk)
  }

  /**
   * `yandexResourcesComputeCloudLoadInstances`: only RUNNING instances are
   * kept. Its error follows `Load`'s rule.
   */
  function LoadInstances(folderId: string, token: string, rs: seq<Response<Instance>>): (r: Loaded<Instance>)
    requires Ends(rs)
    ensures Chained(folderId, InstancesLimit, token, rs, r.requests) && |r.requests| == FirstStop(rs) + 1
    ensures r.items == Gathered(rs[..FirstStop(rs) + 1], IsRunning)
    ensures forall x :: x in r.items ==> x.status == Running
  {
    Load(folderId, InstancesLimit, token, rs, IsRunning)
  }

  lemma {:induction false} PagesLength(rs: seq<Response<Disk>>)
    requires forall i :: 0 <= i < |rs| - 1 ==> Full(rs[i])
    requires |rs| > 0 && rs[|rs| - 1].Listed?
    ensures |Pages(rs)| == DisksLimit * (|rs| - 1) + |rs[|rs| - 1].page.items|
  {
    if |rs| > 1 {
      PagesLength(rs[1..]);
    }
  }

  /**
   * Completeness: when every page but the last is full and none fails, the
   * disk pager returns every item of every page, in order, and no error.
   */
  lemma PagerComplete(folderId: string, rs: seq<Response<Disk>>)
    requires |rs| > 0
    requires forall i :: 0 <= i < |rs| - 1 ==> Full(rs[i])
    requires rs[|rs| - 1].Listed? && |rs[|rs| - 1].page.items| < DisksLimit
    ensures Ends(rs)
    ensures LoadDisks(folderId, "", rs).items == Pages(rs)
    ensures LoadDisks(folderId, "", rs).err == None
    ensures |LoadDisks(folderId, "", rs).items| == DisksLimit * (|rs| - 1) + |rs[|rs| - 1].page.items|
    ensures |LoadDisks(folderId, "", rs).requests| == |rs|
  {
    assert FirstStop(rs) == |rs| - 1;
    assert rs[..|rs|] == rs;
    PagesLength(rs);
  }

  /**
   * The error of a continuation is dropped as soon as some later page
   * yielded items: two full pages and a failing third give 2000 disks and no
   * error.
   */
  lemma ContinuationErrorDropped(folderId: string, a: seq<Disk>, b: seq<Disk>, e: Error)
    requires |a| == DisksLimit && |b| == DisksLimit
    ensures var rs := [Listed(Page(a, "p2")), Listed(Page(b, "p3")), ListFailed(e)];
      Ends(rs) && LoadDisks(folderId, "", rs).err == None && LoadDisks(folderId, "", rs).items == a + b
  {
    var rs := [Listed(Page(a, "p2")), Listed(Page(b, "p3")), ListFailed(e)];
    assert FirstStop(rs[2..]) == 0;
    assert FirstStop(rs[1..]) == 1 by { assert rs[1..][1..] == rs[2..]; }
    assert FirstStop(rs) == 2;
    KeptAll(b);
    assert rs[1..2] == [rs[1]];
    assert Gathered(rs[1..2], AnyDisk) == b;
    assert rs[..3] == rs;
    assert rs[1..][1..] == [ListFailed(e)] && rs[1..][1..][1..] == [];
    assert Pages(rs[1..][1..]) == [];
    assert Pages(rs[1..]) == b;
    assert Pages(rs) == a + b;
  }

  /** A failing continuation whose pages yielded nothing hands its error up with the first page's items. */
  lemma ContinuationErrorKept(folderId: string, a: seq<Disk>, e: Error)
    requires |a| == DisksLimit
    ensures var rs := [Listed(Page(a, "p2")), ListFailed(e)];
      Ends(rs) && LoadDisks(folderId, "", rs).err == Some(e) && LoadDisks(folderId, "", rs).items == a
  {
    var rs := [Listed(Page(a, "p2")), ListFailed(e)];
    assert FirstStop(rs[1..]) == 0;
    assert FirstStop(rs) == 1;
    assert rs[..2] == rs;
  }

  // ---------------------------------------------------------------------------
  // Storage reduction
  // ---------------------------------------------------------------------------

  /** Reference: summed size of the `network-hdd` disks. */
  function HddTotal(ds: seq<Disk>): int
  {
    if ds == [] then 0
    else HddTotal(ds[..|ds| - 1]) + (if ds[|ds| - 1].typeId == "network-hdd" then ds[|ds| - 1].size else 0)
  }

  /** Reference: summed size of the `network-ssd` disks. */
  function SsdTotal(ds: seq<Disk>): int
  {
    if ds == [] then 0
    else SsdTotal(ds[..|ds| - 1]) + (if ds[|ds| - 1].typeId == "network-ssd" then ds[|ds| - 1].size else 0)
  }

  /** The disk loop of the read function. */
  method SumStorage(disks: seq<Disk>) returns (hdd: int, ssd: int)
    ensures hdd == HddTotal(disks) && ssd == SsdTotal(disks)
  {
    hdd, ssd := 0, 0;
    for j := 0 to |disks|
      invariant hdd == HddTotal(disks[..j]) && ssd == SsdTotal(disks[..j])
    {
      assert disks[..j + 1][..j] == disks[..j];
      var item := disks[j];
      if item.typeId == "network-hdd" {
        hdd := hdd + item.size;
      } else if item.typeId == "network-ssd" {
        ssd := ssd + item.size;
      }
    }
    assert disks[..|disks|] == disks;
  }

  /** Storage totals over several pages are the sums of the totals per page. */
  lemma {:induction false} StorageAdditive(a: seq<Disk>, b: seq<Disk>)
    ensures HddTotal(a + b) == HddTotal(a) + HddTotal(b)
    ensures SsdTotal(a + b) == SsdTotal(a) + SsdTotal(b)
    decreases |b|
  {
    if b == [] {
      assert a + b == a;
    } else {
      var b' := b[..|b| - 1];
      assert (a + b)[..|a + b| - 1] == a + b';
      StorageAdditive(a, b');
    }
  }

  /** A disk of any other type changes neither total; one of a known type adds its size to exactly one. */
  lemma DiskClassified(ds: seq<Disk>, x: Disk)
    ensures x.typeId == "network-hdd" ==> HddTotal(ds + [x]) == HddTotal(ds) + x.size && SsdTotal(ds + [x]) == SsdTotal(ds)
    ensures x.typeId == "network-ssd" ==> SsdTotal(ds + [x]) == SsdTotal(ds) + x.size && HddTotal(ds + [x]) == HddTotal(ds)
    ensures x.typeId != "network-hdd" && x.typeId != "network-ssd" ==>
      HddTotal(ds + [x]) == HddTotal(ds) && SsdTotal(ds + [x]) == SsdTotal(ds)
  {
    assert (ds + [x])[..|ds + [x]| - 1] == ds;
  }

  // ---------------------------------------------------------------------------
  // CPU reduction
  // ---------------------------------------------------------------------------

  /** The platform ids reported, in report order. */
  const PlatformIds: seq<string> := ["standard-v1", "standard-v2", "standard-v3"]

  /** The label reported for a platform id. */
  function PlatformLabel(platformId: string): string
  {
    match platformId
    case "standard-v1" => "Intel Broadwell"
    case "standard-v2" => "Intel Cascade Lake"
    case "standard-v3" => "Intel Ice Lake"
    case _ => ""
  }

  /** The compute labels are the shared platform list, position by position. */
  lemma LabelsAreCpuPlatforms()
    ensures |PlatformIds| == |Structures.CpuPlatforms|
    ensures forall k :: 0 <= k < |PlatformIds| ==> PlatformLabel(PlatformIds[k]) == Structures.CpuPlatforms[k]
  {
  }

  /** Fractional cores of one instance: `cores * coreFraction / 100`. */
  function Share(x: Instance): real
  {
    (x.resources.cores as real * x.resources.coreFraction as real) / 100.0
  }

  /** Reference: the instances on `platformId`, in order. */
  function OnPlatform(xs: seq<Instance>, platformId: string): seq<Instance>
  {
    if xs == [] then []
    else OnPlatform(xs[..|xs| - 1], platformId) + (if xs[|xs| - 1].platformId == platformId then [xs[|xs| - 1]] else [])
  }

  /** Reference: the instances on none of the reported platforms. */
  function OffPlatforms(xs: seq<Instance>): seq<Instance>
  {
    if xs == [] then []
    else OffPlatforms(xs[..|xs| - 1]) + (if xs[|xs| - 1].platformId !in PlatformIds then [xs[|xs| - 1]] else [])
  }

  function Cores(xs: seq<Instance>): real
  {
    if xs == [] then 0.0 else Cores(xs[..|xs| - 1]) + Share(xs[|xs| - 1])
  }

  function Memory(xs: seq<Instance>): int
  {
    if xs == [] then 0 else Memory(xs[..|xs| - 1]) + xs[|xs| - 1].resources.memory
  }

  /** Reference: the `cpu` list for the given instances. */
  function CpuReport(xs: seq<Instance>): seq<CpuEntry>
  {
    seq(|PlatformIds|, k requires 0 <= k < |PlatformIds| =>
      CpuEntry(Structures.CpuPlatforms[k], Cores(OnPlatform(xs, PlatformIds[k])), Memory(OnPlatform(xs, PlatformIds[k]))))
  }

  /** The bucket loop of the read function: filter by platform id, then sum. */
  method CpuBuckets(instances: seq<Instance>) returns (cpu: seq<CpuEntry>)
    ensures |cpu| == 3
    ensures forall k :: 0 <= k < 3 ==>
      cpu[k].platform == Structures.CpuPlatforms[k]
      && cpu[k].cores == Cores(OnPlatform(instances, PlatformIds[k]))
      && cpu[k].memory == Memory(OnPlatform(instances, PlatformIds[k]))
    ensures cpu == CpuReport(instances)
  {
    cpu := [];
    for k := 0 to |PlatformIds|
      invariant |cpu| == k
      invariant forall i :: 0 <= i < k ==> cpu[i] == CpuReport(instances)[i]
    {
      var platformId := PlatformIds[k];
      var filtered: seq<Instance> := [];
      for j := 0 to |instances|
        invariant filtered == OnPlatform(instances[..j], platformId)
      {
        assert instances[..j + 1][..j] == instances[..j];
        if instances[j].platformId == platformId {
          filtered := filtered + [instances[j]];
        }
      }
      assert instances[..|instances|] == instances;
      var totalCores: real, totalMemory: int := 0.0, 0;
      for j := 0 to |filtered|
        invariant totalCores == Cores(filtered[..j]) && totalMemory == Memory(filtered[..j])
      {
        assert filtered[..j + 1][..j] == filtered[..j];
        totalCores := totalCores + Share(filtered[j]);
        totalMemory := totalMemory + filtered[j].resources.memory;
      }
      assert filtered[..|filtered|] == filtered;
      cpu := cpu + [CpuEntry(PlatformLabel(platformId), totalCores, totalMemory)];
    }
  }

  /**
   * Every instance lands in exactly one bucket or in none: the three buckets
   * and the instances on other platforms together account for all memory.
   */
  lemma {:induction false} MemoryPartition(xs: seq<Instance>)
    ensures Memory(OnPlatform(xs, "standard-v1")) + Memory(OnPlatform(xs, "standard-v2"))
          + Memory(OnPlatform(xs, "standard-v3")) + Memory(OffPlatforms(xs)) == Memory(xs)
  {
    if xs != [] {
      var init, x := xs[..|xs| - 1], xs[|xs| - 1];
      assert xs == init + [x];
      MemoryPartition(init);
      BucketStep(init, x, "standard-v1");
      BucketStep(init, x, "standard-v2");
      BucketStep(init, x, "standard-v3");
      OffStep(init, x);
      SumsAppend(init, x);
      var p := x.platformId;
      if p == "standard-v1" {
        assert p != "standard-v2" && p != "standard-v3" && p in PlatformIds;
      } else if p == "standard-v2" {
        assert p != "standard-v3" && p in PlatformIds;
      } else if p == "standard-v3" {
        assert p in PlatformIds;
      } else {
        assert p !in PlatformIds;
      }
    }
  }

  /** The same partition for the fractional cores. */
  lemma {:induction false} CoresPartition(xs: seq<Instance>)
    ensures Cores(OnPlatform(xs, "standard-v1")) + Cores(OnPlatform(xs, "standard-v2"))
          + Cores(OnPlatform(xs, "standard-v3")) + Cores(OffPlatforms(xs)) == Cores(xs)
  {
    if xs != [] {
      var init, x := xs[..|xs| - 1], xs[|xs| - 1];
      assert xs == init + [x];
      CoresPartition(init);
      BucketStep(init, x, "standard-v1");
      BucketStep(init, x, "standard-v2");
      BucketStep(init, x, "standard-v3");
      OffStep(init, x);
      SumsAppend(init, x);
      var p := x.platformId;
      if p == "standard-v1" {
        assert p != "standard-v2" && p != "standard-v3" && p in PlatformIds;
      } else if p == "standard-v2" {
        assert p != "standard-v3" && p in PlatformIds;
      } else if p == "standard-v3" {
        assert p in PlatformIds;
      } else {
        assert p !in PlatformIds;
      }
    }
  }

  /** Appending one instance to a bucket's input. */
  lemma BucketStep(xs: seq<Instance>, x: Instance, platformId: string)
    ensures x.platformId == platformId ==>
      Memory(OnPlatform(xs + [x], platformId)) == Memory(OnPlatform(xs, platformId)) + x.resources.memory
      && Cores(OnPlatform(xs + [x], platformId)) == Cores(OnPlatform(xs, platformId)) + Share(x)
    ensures x.platformId != platformId ==> OnPlatform(xs + [x], platformId) == OnPlatform(xs, platformId)
  {
    assert (xs + [x])[..|xs + [x]| - 1] == xs;
    SumsAppend(OnPlatform(xs, platformId), x);
  }

  lemma OffStep(xs: seq<Instance>, x: Instance)
    ensures x.platformId !in PlatformIds ==>
      Memory(OffPlatforms(xs + [x])) == Memory(OffPlatforms(xs)) + x.resources.memory
      && Cores(OffPlatforms(xs + [x])) == Cores(OffPlatforms(xs)) + Share(x)
    ensures x.platformId in PlatformIds ==> OffPlatforms(xs + [x]) == OffPlatforms(xs)
  {
    assert (xs + [x])[..|xs + [x]| - 1] == xs;
    SumsAppend(OffPlatforms(xs), x);
  }

  lemma SumsAppend(xs: seq<Instance>, x: Instance)
    ensures Memory(xs + [x]) == Memory(xs) + x.resources.memory
    ensures Cores(xs + [x]) == Cores(xs) + Share(x)
  {
    assert (xs + [x])[..|xs + [x]| - 1] == xs;
  }

  /** An instance on another platform id changes no bucket. */
  lemma OtherPlatformIgnored(xs: seq<Instance>, x: Instance, platformId: string)
    requires x.platformId != platformId
    ensures OnPlatform(xs + [x], platformId) == OnPlatform(xs, platformId)
  {
    assert (xs + [x])[..|xs + [x]| - 1] == xs;
  }

  /**
   * A stopped and a running `standard-v1` instance of 4 cores at 100%, on one
   * page: only the running one is loaded and Broadwell reports 4 cores.
   */
  lemma StoppedInstanceExcluded(folderId: string)
    ensures var stopped := Instance("standard-v1", Stopped, InstanceResources(4, 100, 4096));
      var running := Instance("standard-v1", Running, InstanceResources(4, 100, 4096));
      var rs := [Listed(Page([stopped, running], ""))];
      Ends(rs)
      && LoadInstances(folderId, "", rs).items == [running]
      && CpuReport(LoadInstances(folderId, "", rs).items)[0] == CpuEntry("Intel Broadwell", 4.0, 4096)
  {
    var stopped := Instance("standard-v1", Stopped, InstanceResources(4, 100, 4096));
    var running := Instance("standard-v1", Running, InstanceResources(4, 100, 4096));
    var rs := [Listed(Page([stopped, running], ""))];
    assert FirstStop(rs) == 0;
    assert rs[..1] == rs;
    assert Kept([stopped, running], IsRunning) == [running] by {
      assert [stopped, running][1..] == [running];
    }
    assert OnPlatform([running], "standard-v1") == [running];
  }

  // ---------------------------------------------------------------------------
  // The read function
  // ---------------------------------------------------------------------------

  /**
   * `dataSourceYandexResourcesComputeCloudContentRead`. `folder` is the
   * outcome of the folder-id lookup; `diskPages` and `instancePages` are the
   * remote's answers to the two pagers.
   */
  method ContentRead(d: ResourceData, folder: Result<string, Error>,
                     diskPages: seq<Response<Disk>>, instancePages: seq<Response<Instance>>)
    returns (err: Option<Error>)
    requires Ends(diskPages) && Ends(instancePages)
    modifies d
    ensures folder.Failure? ==> err == Some(FolderLookup(folder.error)) && d.Snap() == old(d.Snap())
    ensures folder.Success? ==>
      var disks := LoadDisks(folder.value, "", diskPages);
      var instances := LoadInstances(folder.value, "", instancePages);
      var v0 := old(d.values);
      var v1 := v0["network_ssd" := Int(SsdTotal(disks.items))];
      var v2 := v1["network_hdd" := Int(HddTotal(disks.items))];
      var v3 := v2["folder_id" := Str(folder.value)];
      var v4 := v3["cpu" := CpuList(CpuReport(instances.items))];
      d.id == folder.value &&
      if disks.err.Some? then err == disks.err && d.values == v0
      else if "network_ssd" in d.rejects then err == Some(SetRejected("network_ssd")) && d.values == v0
      else if "network_hdd" in d.rejects then err == Some(SetRejected("network_hdd")) && d.values == v1
      else if instances.err.Some? then err == instances.err && d.values == v2
      else if "folder_id" in d.rejects then err == Some(SetRejected("folder_id")) && d.values == v2
      else if "cpu" in d.rejects then err == Some(SetRejected("cpu")) && d.values == v3
      else err == None && d.values == v4
  {
    if folder.Failure? {
      return Some(FolderLookup(folder.error));
    }
    var folderId := folder.value;
    d.SetId(folderId);

    var disks := LoadDisks(folderId, "", diskPages);
    if disks.err.Some? {
      return disks.err;
    }
    var hdd, ssd := SumStorage(disks.items);
    err := d.Set("network_ssd", Int(ssd));
    if err.Some? {
      return;
    }
    err := d.Set("network_hdd", Int(hdd));
    if err.Some? {
      return;
    }

    var instances := LoadInstances(folderId, "", instancePages);
    if instances.err.Some? {
      return instances.err;
    }
    var cpu := CpuBuckets(instances.items);

    err := d.Set("folder_id", Str(folderId));
    if err.Some? {
      return;
    }
    err := d.Set("cpu", CpuList(cpu));
  }
}
