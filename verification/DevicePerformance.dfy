/** Choosing a disk SKU and sizing the device queue for it
    (pkg/optimization/device_perf_linux.go, skus.go). Floating point is modelled over the reals. */
module DevicePerformance {
  import opened Wrappers
  import opened GoStrings

  datatype DiskSku = DiskSku(maxSizeGiB: int, maxIops: int, maxBwMbps: int, maxBurstIops: int, maxBurstBwMbps: int)

  datatype NodeInfo = NodeInfo(maxBurstIops: int, maxBurstBwMbps: int)

  // ---------------------------------------------------------------- picking a SKU

  datatype Request = Request(sizeGiB: int, iops: int, bwMbps: int)

  predicate MeetsRequest(sku: DiskSku, req: Request) {
    sku.maxSizeGiB >= req.sizeGiB && sku.maxBwMbps >= req.bwMbps && sku.maxIops >= req.iops
  }

  type Skus = map<string, DiskSku>

  /** A smallest SKU that meets the request. */
  ghost predicate Best(skus: Skus, req: Request, sku: DiskSku) {
    && sku in skus.Values
    && MeetsRequest(sku, req)
    && forall k :: k in skus && MeetsRequest(skus[k], req) ==> sku.maxSizeGiB <= skus[k].maxSizeGiB
  }

  /** `order` visits every key of the map once. */
  ghost predicate Visits(order: seq<string>, skus: Skus) {
    && (forall k :: k in order <==> k in skus)
    && (forall i, j :: 0 <= i < j < |order| ==> order[i] != order[j])
  }

  /** One round of the search. */
  function Better(found: Option<DiskSku>, sku: DiskSku, req: Request): Option<DiskSku> {
    if MeetsRequest(sku, req) && (found.None? || sku.maxSizeGiB < found.value.maxSizeGiB) then Some(sku) else found
  }

  function Pick(skus: Skus, order: seq<string>, req: Request): Option<DiskSku>
    requires forall k :: k in order ==> k in skus
  {
    if order == [] then None
    else
      var last := |order| - 1;
      Better(Pick(skus, order[..last], req), skus[order[last]], req)
  }

  lemma {:induction false} PickSpec(skus: Skus, order: seq<string>, req: Request)
    requires forall k :: k in order ==> k in skus
    ensures var r := Pick(skus, order, req);
      && (r.Some? ==> MeetsRequest(r.value, req) && exists k :: k in order && skus[k] == r.value)
      && (forall k :: k in order && MeetsRequest(skus[k], req) ==> r.Some? && r.value.maxSizeGiB <= skus[k].maxSizeGiB)
  {
    if order != [] {
      var last := |order| - 1;
      PickSpec(skus, order[..last], req);
      forall k | k in order ensures k in order[..last] || k == order[last] {
        var i :| 0 <= i < |order| && order[i] == k;
        if i < last { assert order[..last][i] == k; }
      }
    }
  }

  /** Whatever the visiting order: a smallest SKU that meets the request, none exactly when
      none meets it. */
  lemma PickIsBest(skus: Skus, order: seq<string>, req: Request)
    requires Visits(order, skus)
    ensures var r := Pick(skus, order, req);
      && (r.Some? ==> Best(skus, req, r.value))
      && (r.None? <==> forall k :: k in skus ==> !MeetsRequest(skus[k], req))
  {
    PickSpec(skus, order, req);
  }

  /** The answer in figures: large, fast and wide enough, with every smaller SKU too slow or too narrow;
      and no answer only if every SKU is too small, too slow or too narrow. */
  lemma PickInFigures(skus: Skus, order: seq<string>, size: int, iops: int, bw: int, k: string)
    requires Visits(order, skus) && k in skus
    ensures var r := Pick(skus, order, Request(size, iops, bw));
      && (r.Some? ==> r.value.maxSizeGiB >= size && r.value.maxIops >= iops && r.value.maxBwMbps >= bw)
      && (r.Some? && size <= skus[k].maxSizeGiB < r.value.maxSizeGiB ==>
            skus[k].maxIops < iops || skus[k].maxBwMbps < bw)
      && (r.None? ==> skus[k].maxSizeGiB < size || skus[k].maxIops < iops || skus[k].maxBwMbps < bw)
  {
    PickSpec(skus, order, Request(size, iops, bw));
  }

  /** The comparison is strict, so the first smallest SKU visited stays. */
  lemma {:induction false} FirstBestStays(skus: Skus, order: seq<string>, req: Request)
    requires order != [] && (forall k :: k in order ==> k in skus) && Best(skus, req, skus[order[0]])
    ensures Pick(skus, order, req) == Some(skus[order[0]])
  {
    var last := |order| - 1;
    if last == 0 {
      assert order[..0] == [];
    } else {
      FirstBestStays(skus, order[..last], req);
    }
  }

  lemma {:induction false} VisitsFrom(skus: Skus, rest: set<string>, prefix: seq<string>) returns (order: seq<string>)
    requires forall k :: k in skus <==> k in rest || k in prefix
    requires forall k :: k in rest ==> k !in prefix
    requires forall i, j :: 0 <= i < j < |prefix| ==> prefix[i] != prefix[j]
    ensures Visits(order, skus) && prefix <= order
    decreases |rest|
  {
    if rest == {} {
      order := prefix;
    } else {
      var k :| k in rest;
      order := VisitsFrom(skus, rest - {k}, prefix + [k]);
    }
  }

  ghost predicate OrderIndependent(skus: Skus, req: Request) {
    forall o, p :: Visits(o, skus) && Visits(p, skus) ==> Pick(skus, o, req) == Pick(skus, p, req)
  }

  /** The answer does not depend on the visiting order exactly when no two different SKUs are
      both smallest. */
  lemma OrderIndependentIff(skus: Skus, req: Request)
    ensures OrderIndependent(skus, req) <==>
      forall a, b :: Best(skus, req, a) && Best(skus, req, b) ==> a == b
  {
    forall o, p | (forall a, b :: Best(skus, req, a) && Best(skus, req, b) ==> a == b)
                  && Visits(o, skus) && Visits(p, skus)
      ensures Pick(skus, o, req) == Pick(skus, p, req) {
      PickIsBest(skus, o, req);
      PickIsBest(skus, p, req);
    }
    forall a, b | OrderIndependent(skus, req) && Best(skus, req, a) && Best(skus, req, b) ensures a == b {
      var j :| j in skus && skus[j] == a;
      var k :| k in skus && skus[k] == b;
      var o := VisitsFrom(skus, skus.Keys - {j}, [j]);
      var p := VisitsFrom(skus, skus.Keys - {k}, [k]);
      FirstBestStays(skus, o, req);
      FirstBestStays(skus, p, req);
    }
  }

  /** In particular when the sizes within the account type are distinct. */
  lemma DistinctSizesFixThePick(skus: Skus, req: Request)
    requires forall j, k :: j in skus && k in skus && j != k ==> skus[j].maxSizeGiB != skus[k].maxSizeGiB
    ensures OrderIndependent(skus, req)
  {
    forall a, b | Best(skus, req, a) && Best(skus, req, b) ensures a == b {
      var j :| j in skus && skus[j] == a;
      var k :| k in skus && skus[k] == b;
      assert skus[j].maxSizeGiB == skus[k].maxSizeGiB;
    }
    OrderIndependentIff(skus, req);
  }

  datatype SkuError = UnknownAccountType | BadSize

  /** The limits a caller may leave out: text that is no number stands for 0. */
  function OptionalLimit(text: string): int {
    match Atoi(text) case Some(n) => n case None => 0
  }

  /** getMatchingDiskSku, visiting the account type's SKUs in the given order. */
  method GetMatchingDiskSku(table: map<string, Skus>, accountType: string, size: string, iops: string, bw: string,
                            order: seq<string>)
    returns (r: Result<Option<DiskSku>, SkuError>)
    requires Lower(accountType) in table ==> Visits(order, table[Lower(accountType)])
    ensures r == Err(UnknownAccountType) <==> Lower(accountType) !in table || table[Lower(accountType)] == map[]
    ensures r == Err(BadSize) <==>
      Lower(accountType) in table && table[Lower(accountType)] != map[] && Atoi(size).None?
    ensures r.Ok? ==>
      && Lower(accountType) in table && Atoi(size).Some?
      && var skus := table[Lower(accountType)];
      var req := Request(Atoi(size).value, if Atoi(iops).Some? then Atoi(iops).value else 0,
                         if Atoi(bw).Some? then Atoi(bw).value else 0);
      && (forall k :: k in order ==> k in skus)
      && r.value == Pick(skus, order, req)
      && (r.value.Some? ==> Best(skus, req, r.value.value))
      && (r.value.None? <==> forall k :: k in skus ==> !MeetsRequest(skus[k], req))
  {
    if Lower(accountType) !in table || table[Lower(accountType)] == map[] {
      return Err(UnknownAccountType);
    }
    var skus := table[Lower(accountType)];
    if Atoi(size).None? {
      return Err(BadSize);
    }
    var req := Request(Atoi(size).value, OptionalLimit(iops), OptionalLimit(bw));
    var matching: Option<DiskSku> := None;
    for i := 0 to |order|
      invariant matching == Pick(skus, order[..i], req)
    {
      assert order[..i + 1][..i] == order[..i];
      var sku := skus[order[i]];
      if MeetsRequest(sku, req) {
        if matching.None? || sku.maxSizeGiB < matching.value.maxSizeGiB {
          matching := Some(sku);
        }
      }
    }
    assert order[..|order|] == order;
    PickIsBest(skus, order, req);
    r := Ok(matching);
  }

  // ---------------------------------------------------------------- sizing the queue

  function Min(a: real, b: real): real { if a <= b then a else b }

  function Max(a: real, b: real): real { if a >= b then a else b }

  /** math.Ceil: the least integer not below x. */
  function Ceil(x: real): (n: int)
    ensures x <= n as real < x + 1.0
  {
    -((-x).Floor)
  }

  const HEADROOM := 0.25
  const MAX_HW_SECTORS_KB := 512.0

  function RandomLatency(sku: DiskSku): (r: real)
    ensures r > 0.0
  {
    if sku.maxSizeGiB <= 4096 then 0.0022
    else if sku.maxSizeGiB <= 8192 then 0.0028
    else if sku.maxSizeGiB <= 16384 then 0.0034
    else 0.004
  }

  function SequentialLatency(sku: DiskSku): (r: real)
    ensures r > RandomLatency(sku)
  {
    if sku.maxSizeGiB <= 4096 then 0.0033
    else if sku.maxSizeGiB <= 8192 then 0.0041
    else if sku.maxSizeGiB <= 16384 then 0.0046
    else 0.0052
  }

  /** The latencies grow with the size, in steps above 4096, 8192 and 16384 GiB. */
  lemma LatencySteps(sku: DiskSku, larger: DiskSku)
    requires sku.maxSizeGiB <= larger.maxSizeGiB
    ensures 0.0022 <= RandomLatency(sku) <= RandomLatency(larger)
    ensures 0.0033 <= SequentialLatency(sku) <= SequentialLatency(larger)
    ensures var s := (n: int) => sku.(maxSizeGiB := n);
      && RandomLatency(s(4096)) == 0.0022 && SequentialLatency(s(4096)) == 0.0033
      && RandomLatency(s(4097)) == RandomLatency(s(8192)) == 0.0028
      && SequentialLatency(s(4097)) == SequentialLatency(s(8192)) == 0.0041
      && RandomLatency(s(8193)) == RandomLatency(s(16384)) == 0.0034
      && SequentialLatency(s(8193)) == SequentialLatency(s(16384)) == 0.0046
    ensures sku.maxSizeGiB > 16384 ==> RandomLatency(sku) == 0.004 && SequentialLatency(sku) == 0.0052
  {
  }

  predicate Positive(sku: DiskSku) { sku.maxBurstIops > 0 && sku.maxBurstBwMbps > 0 }

  /** Burst IOPS of disk and VM together; a VM without published IOPS does not limit. */
  function BurstIops(sku: DiskSku, node: NodeInfo): (r: real)
    requires Positive(sku)
    ensures 0.0 < r <= sku.maxBurstIops as real
  {
    var m := Min(sku.maxBurstIops as real, node.maxBurstIops as real);
    if m <= 0.0 then sku.maxBurstIops as real else m
  }

  /** Burst bandwidth in kB/s; without a published VM bandwidth the disk's figure is taken
      as it stands, in MB/s. */
  function BurstBw(sku: DiskSku, node: NodeInfo): (r: real)
    requires Positive(sku)
    ensures 0.0 < r <= 1000.0 * sku.maxBurstBwMbps as real
  {
    var m := Min(sku.maxBurstBwMbps as real, node.maxBurstBwMbps as real) * 1000.0;
    if m <= 0.0 then sku.maxBurstBwMbps as real else m
  }

  /** A VM that publishes a figure limits the disk by it; one that does not leaves the disk its own. */
  lemma BurstLimits(sku: DiskSku, node: NodeInfo)
    requires Positive(sku)
    ensures node.maxBurstIops <= 0 || node.maxBurstIops >= sku.maxBurstIops ==>
      BurstIops(sku, node) == sku.maxBurstIops as real
    ensures 0 < node.maxBurstIops <= sku.maxBurstIops ==> BurstIops(sku, node) == node.maxBurstIops as real
    ensures 0 < node.maxBurstBwMbps <= sku.maxBurstBwMbps ==> BurstBw(sku, node) == (1000 * node.maxBurstBwMbps) as real
    ensures node.maxBurstBwMbps >= sku.maxBurstBwMbps ==> BurstBw(sku, node) == (1000 * sku.maxBurstBwMbps) as real
    ensures node.maxBurstBwMbps <= 0 ==> BurstBw(sku, node) == sku.maxBurstBwMbps as real
  {
  }

  datatype Settings = Settings(queueDepth: int, maxSectorsKb: int, readAheadKb: int)

  /** The request size in kB that reaches the bandwidth, capped by the hardware. */
  function RequestSize(bw: real, iops: real): (n: int)
    requires bw > 0.0 && iops > 0.0
    ensures 1 <= n <= 512
  {
    QuotientSpec(bw, iops, 0);
    Ceil(Min(MAX_HW_SECTORS_KB, bw / iops))
  }

  /** The queue depth for sequential loads of `load` kB in flight, n kB each. */
  function SequentialDepth(load: real, n: int): int
    requires n >= 1
  {
    Ceil(load / n as real)
  }

  function TotalDepth(random: int, sequential: int): int {
    Ceil(Max(random as real * HEADROOM + sequential as real, random as real))
  }

  /** The settings for requests of n kB, `load` kB and `wanted` operations in flight. */
  function SettingsFor(load: real, wanted: real, n: int): Settings
    requires n >= 1
  {
    var sequential := SequentialDepth(load, n);
    Settings(TotalDepth(Ceil(wanted), sequential), n, Ceil(sequential as real * n as real))
  }

  /** The kB and the operations in flight that drive the limits at the SKU's latencies. */
  function SequentialLoad(sku: DiskSku, node: NodeInfo): (r: real)
    requires Positive(sku)
    ensures r > 0.0
  {
    ProductPositive(BurstBw(sku, node), SequentialLatency(sku));
    BurstBw(sku, node) * SequentialLatency(sku)
  }

  function RandomLoad(sku: DiskSku, node: NodeInfo): (r: real)
    requires Positive(sku)
    ensures r > 0.0
  {
    ProductPositive(BurstIops(sku, node), RandomLatency(sku));
    BurstIops(sku, node) * RandomLatency(sku)
  }

  /** The IOPS left for sequential requests, three quarters of the burst. */
  function SequentialIops(sku: DiskSku, node: NodeInfo): (r: real)
    requires Positive(sku)
    ensures r > 0.0
  {
    BurstIops(sku, node) * (1.0 - HEADROOM)
  }

  function OptimalRequestSize(sku: DiskSku, node: NodeInfo): (n: int)
    requires Positive(sku)
    ensures 1 <= n <= 512
  {
    RequestSize(BurstBw(sku, node), SequentialIops(sku, node))
  }

  /** The arithmetic of getOptimalDeviceSettings. */
  function OptimalSettings(sku: DiskSku, node: NodeInfo): Settings
    requires Positive(sku)
  {
    SettingsFor(SequentialLoad(sku, node), RandomLoad(sku, node), OptimalRequestSize(sku, node))
  }

  lemma ProductPositive(a: real, b: real)
    requires a > 0.0 && b > 0.0
    ensures a * b > 0.0
  {
  }

  lemma QuotientSpec(a: real, b: real, n: int)
    requires b > 0.0
    ensures a / b <= n as real <==> a <= n as real * b
  {
    var q := a / b;
    assert a == q * b;
    if q <= n as real { assert (n as real - q) * b >= 0.0; } else { assert (q - n as real) * b > 0.0; }
  }

  /** n kB is legal; with it the operations reach the bandwidth exactly when 512 kB would, and with
      1 kB less they do not. */
  ghost predicate RightSize(n: int, iops: real, bw: real) {
    && 1 <= n <= 512
    && (bw <= n as real * iops <==> bw <= 512.0 * iops)
    && (n - 1) as real * iops < bw
  }

  /** Below the cap, the request size is the least whole number of kB with which the operations
      reach the bandwidth; it reaches it exactly when 512 kB would. */
  lemma RequestSizeSpec(bw: real, iops: real)
    requires bw > 0.0 && iops > 0.0
    ensures RightSize(RequestSize(bw, iops), iops, bw)
  {
    var n := RequestSize(bw, iops);
    QuotientSpec(bw, iops, n);
    QuotientSpec(bw, iops, n - 1);
    QuotientSpec(bw, iops, 512);
  }

  /** The least number of requests of n kB that carries the load. */
  lemma SequentialDepthSpec(load: real, n: int)
    requires n >= 1
    ensures load <= (SequentialDepth(load, n) * n) as real
    ensures ((SequentialDepth(load, n) - 1) * n) as real < load
  {
    var d := SequentialDepth(load, n);
    QuotientSpec(load, n as real, d);
    QuotientSpec(load, n as real, d - 1);
    assert (d * n) as real == d as real * n as real;
    assert ((d - 1) * n) as real == (d - 1) as real * n as real;
  }

  /** The depth serves the random load and, a quarter of that set aside, the sequential one; it is
      the least that does. */
  lemma TotalDepthSpec(random: int, sequential: int)
    requires random >= 1
    ensures var depth := TotalDepth(random, sequential);
      && random <= depth && sequential < depth
      && (depth == random || 4 * depth < random + 4 * sequential + 4)
  {
    assert random as real * HEADROOM > 0.0;
  }

  /** `kb` is k requests of n kB. */
  predicate IsRequests(kb: int, k: int, n: int) { kb == k * n }

  /** Depth and read-ahead against the two loads, in kB and in operations in flight. */
  ghost predicate Covers(s: Settings, load: real, wanted: real) {
    && load <= (s.queueDepth * s.maxSectorsKb) as real
    && wanted <= s.queueDepth as real
    && load <= s.readAheadKb as real
    && (s.readAheadKb - s.maxSectorsKb) as real < load
    && exists k :: k < s.queueDepth && IsRequests(s.readAheadKb, k, s.maxSectorsKb)
  }

  /** One request less would not do: either the random load fills the queue, or what is left
      after setting aside any share that is at least a quarter of it cannot carry the sequential load. */
  ghost predicate Tight(s: Settings, load: real, wanted: real) {
    || (s.queueDepth - 1) as real < wanted
    || (forall rest, kb :: Ceil(wanted) <= 4 * (s.queueDepth - 1 - rest) && IsRequests(kb, rest, s.maxSectorsKb) ==>
          kb as real < load)
  }

  lemma DepthCovers(load: real, wanted: real, n: int)
    requires load > 0.0 && wanted > 0.0 && n >= 1
    ensures Covers(SettingsFor(load, wanted, n), load, wanted)
  {
    var sequential, random := SequentialDepth(load, n), Ceil(wanted);
    SequentialDepthSpec(load, n);
    TotalDepthSpec(random, sequential);
    ScaleMonotone(sequential, TotalDepth(random, sequential), n);
    ReadAheadIsWhole(sequential, n);
    assert IsRequests(SettingsFor(load, wanted, n).readAheadKb, sequential, n);
  }

  lemma ReadAheadIsWhole(sequential: int, n: int)
    ensures Ceil(sequential as real * n as real) == sequential * n
  {
    assert (sequential * n) as real == sequential as real * n as real;
  }

  lemma DepthTight(load: real, wanted: real, n: int)
    requires load > 0.0 && wanted > 0.0 && n >= 1
    ensures Tight(SettingsFor(load, wanted, n), load, wanted)
  {
    var sequential, random := SequentialDepth(load, n), Ceil(wanted);
    SequentialDepthSpec(load, n);
    TotalDepthSpec(random, sequential);
    var depth := TotalDepth(random, sequential);
    if depth != random {
      forall rest, kb | random <= 4 * (depth - 1 - rest) && IsRequests(kb, rest, n) ensures kb as real < load {
        ScaleMonotone(rest, sequential - 1, n);
      }
    }
  }

  /** The request size law, for every disk SKU with positive limits on every VM: three quarters of
      the burst IOPS, at the chosen size, drive the burst bandwidth unless 512 kB would not. */
  lemma RequestSizeIsRight(sku: DiskSku, node: NodeInfo)
    requires Positive(sku)
    ensures SequentialIops(sku, node) == 0.75 * BurstIops(sku, node)
    ensures RightSize(OptimalSettings(sku, node).maxSectorsKb, SequentialIops(sku, node), BurstBw(sku, node))
  {
    RequestSizeSpec(BurstBw(sku, node), SequentialIops(sku, node));
  }

  /** The queue law: the queue covers both kinds of load at their latencies, without waste; the
      read-ahead covers the sequential load in whole requests that fit the queue. */
  lemma QueueIsSized(sku: DiskSku, node: NodeInfo)
    requires Positive(sku)
    ensures SequentialLoad(sku, node) == BurstBw(sku, node) * SequentialLatency(sku)
    ensures RandomLoad(sku, node) == BurstIops(sku, node) * RandomLatency(sku)
    ensures Covers(OptimalSettings(sku, node), SequentialLoad(sku, node), RandomLoad(sku, node))
    ensures Tight(OptimalSettings(sku, node), SequentialLoad(sku, node), RandomLoad(sku, node))
  {
    DepthCovers(SequentialLoad(sku, node), RandomLoad(sku, node), OptimalRequestSize(sku, node));
    DepthTight(SequentialLoad(sku, node), RandomLoad(sku, node), OptimalRequestSize(sku, node));
  }

  lemma ScaleMonotone(a: int, b: int, n: int)
    requires a <= b && n >= 1
    ensures a * n <= b * n
  {
    assert (b - a) * n >= 0;
  }

  // ---------------------------------------------------------------- is the disk's bandwidth reached?

  /** What disk and VM allow together, in MB/s; a VM without a published bandwidth does not limit. */
  function BandwidthLimit(sku: DiskSku, node: NodeInfo): int {
    if 0 < node.maxBurstBwMbps <= sku.maxBurstBwMbps then node.maxBurstBwMbps else sku.maxBurstBwMbps
  }

  /** The kB in flight that this takes at the sequential latency. */
  function NeededLoad(sku: DiskSku, node: NodeInfo): real {
    1000.0 * (BandwidthLimit(sku, node) as real * SequentialLatency(sku))
  }

  /** The queue, filled with requests of the chosen size, sustains what disk and VM allow. */
  predicate Sustains(sku: DiskSku, node: NodeInfo)
    requires Positive(sku)
  {
    var s := OptimalSettings(sku, node);
    NeededLoad(sku, node) <= (s.queueDepth * s.maxSectorsKb) as real
  }

  /** On a VM with a published bandwidth the queue sustains what disk and VM allow. */
  lemma PublishedBandwidthSustained(sku: DiskSku, node: NodeInfo)
    requires Positive(sku) && node.maxBurstBwMbps > 0
    ensures Sustains(sku, node)
  {
    QueueIsSized(sku, node);
    TargetIsNeeded(sku, node);
  }

  lemma TargetIsNeeded(sku: DiskSku, node: NodeInfo)
    requires Positive(sku) && node.maxBurstBwMbps > 0
    ensures SequentialLoad(sku, node) == NeededLoad(sku, node)
  {
    var limit, latency := BandwidthLimit(sku, node) as real, SequentialLatency(sku);
    assert BurstBw(sku, node) == limit * 1000.0;
    assert limit * 1000.0 * latency == 1000.0 * (limit * latency);
  }

  /** One kB requests: beside a random load that falls short, the sequential one adds too little. */
  lemma SmallRequestsFallShort(load: real, random: int, sequential: int, depth: int)
    requires load >= 0.0033 && random as real < 1000.0 * load && (sequential - 1) as real < load
    requires depth == random || 4 * depth < random + 4 * sequential + 4
    ensures depth as real < 1000.0 * load
  {
  }

  /** Larger requests and hardly any random load: the disk is slow, and the queue is a few requests.
      `x` kB are in the queue, all sequential requests but one take `z` kB, and `p` kB a second are
      less than the bandwidth. */
  lemma FewRequestsFallShort(bw: int, iops: int, load: real, n: int, p: int, x: int, z: int)
    requires bw >= 1 && iops >= 1 && n >= 2 && n - 1 <= p && (iops >= 2 ==> 2 * (n - 1) <= p) && 3 * p < 4 * bw
    requires load >= 0.0033 * bw as real && z as real < load && x <= z + 2 * n && (z == 0 || z >= n)
    requires !(bw == 1 && iops == 1 && load < 0.0041)
    ensures x as real < 1000.0 * load
  {
    if bw == 1 { assert n == 2 && iops == 1; }
  }

  /** Larger requests and a random load, of `y` kB: then the requests are few for the bandwidth. */
  lemma RandomRequestsFallShort(bw: int, load: real, n: int, x: int, y: int, z: int)
    requires bw >= 1 && 750 * n < 8 * bw && 375 * y < 8 * bw
    requires load >= 0.0033 * bw as real && z as real < load && (x == y || 4 * x <= y + 4 * z + 7 * n)
    ensures x as real < 1000.0 * load
  {
  }

  /** A random load of two or more takes many IOPS, with which even a few requests of two kB or more
      drive a high bandwidth. */
  lemma RequestsAreFew(bw: int, iops: int, n: int, random: int)
    requires n >= 2 && 3 * ((n - 1) * iops) < 4 * bw && 250 < iops && 125 * random < iops
    ensures 750 * n < 8 * bw && 375 * (random * n) < 8 * bw
  {
    var p, q := (n - 1) * iops, n * iops;
    assert q <= 2 * p by { assert 2 * p - q == (n - 2) * iops && (n - 2) * iops >= 0; }
    ScaleMonotone(250, iops, n);
    ScaleMonotone(125 * random, iops, n);
    assert iops * n == q && 125 * random * n == 125 * (random * n);
  }

  /** The depth in kB, in terms of its parts. */
  lemma DepthInKb(n: int, random: int, sequential: int, depth: int)
    requires n >= 1 && sequential >= 1 && (depth == random || 4 * depth < random + 4 * sequential + 4)
    ensures depth * n == random * n || 4 * (depth * n) <= random * n + 4 * ((sequential - 1) * n) + 7 * n
    ensures random == 1 ==> depth * n <= (sequential - 1) * n + 2 * n
    ensures (sequential - 1) * n == 0 || (sequential - 1) * n >= n
  {
    if depth != random { MixedDepthInKb(n, random, sequential - 1, depth); }
    if random == 1 {
      ScaleMonotone(depth, sequential + 1, n);
      assert (sequential + 1) * n == (sequential - 1) * n + 2 * n;
    }
    if sequential > 1 { ScaleMonotone(1, sequential - 1, n); }
  }

  lemma MixedDepthInKb(n: int, random: int, others: int, depth: int)
    requires n >= 1 && 4 * depth <= random + 4 * others + 7
    ensures 4 * (depth * n) <= random * n + 4 * (others * n) + 7 * n
  {
    ScaleMonotone(4 * depth, random + 4 * others + 7, n);
  }

  lemma SizeTimesIops(n: int, iops: int)
    requires n >= 1 && iops >= 1
    ensures n - 1 <= (n - 1) * iops && (iops >= 2 ==> 2 * (n - 1) <= (n - 1) * iops)
  {
    assert (n - 1) * iops - (n - 1) == (n - 1) * (iops - 1) && (n - 1) * (iops - 1) >= 0;
    if iops >= 2 { assert (n - 1) * iops - 2 * (n - 1) == (n - 1) * (iops - 2) && (n - 1) * (iops - 2) >= 0; }
  }

  /** Without a random load that fills such a queue by itself, the queue falls short. */
  lemma QueueFallsShort(bw: int, iops: int, load: real, n: int, random: int, sequential: int, depth: int)
    requires bw >= 1 && iops >= 1 && n >= 1 && 3 * ((n - 1) * iops) < 4 * bw
    requires random >= 1 && (random - 1) as real < 0.004 * iops as real && random as real < 1000.0 * load
    requires sequential >= 1 && load >= 0.0033 * bw as real && ((sequential - 1) * n) as real < load
    requires depth == random || 4 * depth < random + 4 * sequential + 4
    requires !(bw == 1 && iops == 1 && load < 0.0041)
    ensures (depth * n) as real < 1000.0 * load
  {
    DepthInKb(n, random, sequential, depth);
    if n == 1 {
      SmallRequestsFallShort(load, random, sequential, depth);
    } else if random == 1 {
      SizeTimesIops(n, iops);
      FewRequestsFallShort(bw, iops, load, n, (n - 1) * iops, depth * n, (sequential - 1) * n);
    } else {
      assert 250 < iops && 125 * random < iops;
      RequestsAreFew(bw, iops, n, random);
      RandomRequestsFallShort(bw, load, n, depth * n, random * n, (sequential - 1) * n);
    }
  }

  /** The law on the figures alone: `wanted` random operations and `load` kB in flight. */
  lemma SustainedIff(bw: int, iops: int, wanted: real, load: real, n: int)
    requires bw >= 1 && iops >= 1 && n >= 1 && 0.0 < wanted <= 0.004 * iops as real && load >= 0.0033 * bw as real
    requires 3 * ((n - 1) * iops) < 4 * bw && (bw == 1 && iops == 1 ==> n == 2)
    requires bw == 1 && load < 0.0041 ==> load == 0.0033
    ensures var s := SettingsFor(load, wanted, n);
      (1000.0 * load <= (s.queueDepth * s.maxSectorsKb) as real) <==>
      (Ceil(wanted) as real >= 1000.0 * load || (bw == 1 && iops == 1 && load < 0.0041))
  {
    var random, sequential := Ceil(wanted), SequentialDepth(load, n);
    var depth := TotalDepth(random, sequential);
    SequentialDepthSpec(load, n);
    SequentialIsPositive(load, n);
    TotalDepthSpec(random, sequential);
    if bw == 1 && iops == 1 && load < 0.0041 {
      ScaleMonotone(2, depth, n);
    } else if random as real >= 1000.0 * load {
      ScaleMonotone(1, n, depth);
      assert n * depth == depth * n;
    } else {
      QueueFallsShort(bw, iops, load, n, random, sequential, depth);
    }
  }

  lemma SequentialIsPositive(load: real, n: int)
    requires load > 0.0 && n >= 1
    ensures SequentialDepth(load, n) >= 1
  {
    QuotientSpec(load, n as real, 0);
  }

  /** The smallest conceivable disk: one operation and one MB a second. */
  predicate Smallest(sku: DiskSku, node: NodeInfo)
    requires Positive(sku)
  {
    sku.maxBurstBwMbps == 1 && BurstIops(sku, node) == 1.0 && sku.maxSizeGiB <= 4096
  }

  /** The figures of a VM without a published bandwidth, in whole numbers. */
  lemma UnpublishedFigures(sku: DiskSku, node: NodeInfo) returns (iops: int)
    requires Positive(sku) && node.maxBurstBwMbps <= 0
    ensures iops >= 1 && BurstIops(sku, node) == iops as real && BurstBw(sku, node) == sku.maxBurstBwMbps as real
    ensures 0.0 < RandomLoad(sku, node) <= 0.004 * iops as real
    ensures 0.0033 * sku.maxBurstBwMbps as real <= SequentialLoad(sku, node)
    ensures NeededLoad(sku, node) == 1000.0 * SequentialLoad(sku, node)
    ensures sku.maxBurstBwMbps == 1 ==> SequentialLoad(sku, node) == SequentialLatency(sku)
  {
    iops := if 0 < node.maxBurstIops <= sku.maxBurstIops then node.maxBurstIops else sku.maxBurstIops;
    assert iops as real * (0.004 - RandomLatency(sku)) >= 0.0;
    assert sku.maxBurstBwMbps as real * (SequentialLatency(sku) - 0.0033) >= 0.0;
  }

  /** The request size in whole numbers: the least with which three quarters of the operations reach
      the bandwidth, if 512 kB do. */
  lemma SizeInWholes(bw: int, iops: int)
    requires bw >= 1 && iops >= 1
    ensures var n := RequestSize(bw as real, iops as real * (1.0 - HEADROOM));
      3 * ((n - 1) * iops) < 4 * bw && (bw == 1 && iops == 1 ==> n == 2)
  {
    var reserved := iops as real * (1.0 - HEADROOM);
    var n := RequestSize(bw as real, reserved);
    RequestSizeSpec(bw as real, reserved);
    assert ((n - 1) * iops) as real == (n - 1) as real * iops as real;
    assert (n - 1) as real * reserved == 0.75 * ((n - 1) as real * iops as real);
  }

  /** On a VM without a published bandwidth the queue is sized for a thousandth of the disk's. It
      sustains the disk all the same exactly when the random load fills such a queue by itself
      (burst IOPS times random latency, rounded up, against the kB needed in flight), or for the
      smallest conceivable disk. */
  lemma UnpublishedBandwidthSustainedIff(sku: DiskSku, node: NodeInfo)
    requires Positive(sku) && node.maxBurstBwMbps <= 0
    ensures Sustains(sku, node) <==>
      Ceil(RandomLoad(sku, node)) as real >= NeededLoad(sku, node) || Smallest(sku, node)
  {
    var iops := UnpublishedFigures(sku, node);
    SizeInWholes(sku.maxBurstBwMbps, iops);
    SustainedIff(sku.maxBurstBwMbps, iops, RandomLoad(sku, node), SequentialLoad(sku, node),
                 OptimalRequestSize(sku, node));
  }

  /** A disk of ordinary figures on such a VM: the queue carries a fiftieth of what is needed. */
  lemma UnpublishedBandwidthUndersizes()
    ensures var sku, node := DiskSku(1024, 5000, 200, 30000, 1000), NodeInfo(0, 0);
      OptimalSettings(sku, node) == Settings(66, 1, 4) && NeededLoad(sku, node) == 3300.0 && !Sustains(sku, node)
  {
    assert RequestSize(1000.0, 22500.0) == 1;
    assert SequentialDepth(3.3, 1) == 4;
  }
}
