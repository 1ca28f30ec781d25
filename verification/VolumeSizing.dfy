/** Size arithmetic: rounding to whole GiB (pkg/util/util.go), the size CreateVolume asks for
    (controllerserver.go), ResizeDisk (azure_managedDiskController.go) and the size check that
    closes NodeExpandVolume (nodeserver.go). Machine widths are written out. */
module VolumeSizing {
  import opened Wrappers
  import opened GoStrings

  const GIB := 0x4000_0000
  const MAX_INT32 := 0x7FFF_FFFF
  const MINIMUM_GIB := 1
  const PERFORMANCE_PLUS_GIB := 513
  /** The LUKS2 header in front of every mapped device: 16 MiB. */
  const LUKS_HEADER := 0x100_0000

  predicate Int64(n: int) { MIN_INT <= n <= MAX_INT }

  /** Two's complement truncation to 64 and to 32 bits. */
  function Wrap64(n: int): int {
    (n - MIN_INT) % 0x1_0000_0000_0000_0000 + MIN_INT
  }

  function Wrap32(n: int): int {
    (n + 0x8000_0000) % 0x1_0000_0000 - 0x8000_0000
  }

  // ---------------------------------------------------------------- rounding

  /** Go's `/`, which truncates toward zero, and its `%`, which takes the dividend's sign. */
  function GoDiv(n: int, unit: int): int
    requires unit > 0
  {
    if n >= 0 then n / unit else -(-n / unit)
  }

  function GoMod(n: int, unit: int): int
    requires unit > 0
  {
    n - unit * GoDiv(n, unit)
  }

  /** The smallest number of units that holds `n`, negative sizes included, although the code
      divides by truncation. */
  function RoundUpSize(n: int, unit: int): (r: int)
    requires unit > 0
    ensures (r - 1) * unit < n <= r * unit
  {
    var q := GoDiv(n, unit);
    if GoMod(n, unit) > 0 then q + 1 else q
  }

  function RoundUpGiB(n: int): int { RoundUpSize(n, GIB) }

  function RoundUpBytes(n: int): int { Wrap64(RoundUpGiB(n) * GIB) }

  function GiBToBytes(g: int): int { Wrap64(g * GIB) }

  /** Rounding is the Galois adjoint of the unit conversion: g GiB hold n bytes exactly when
      g is at least the rounded-up count. */
  lemma RoundUpIff(n: int, g: int)
    ensures RoundUpGiB(n) <= g <==> n <= g * GIB
  {
  }

  /** Rounding up in bytes is idempotent and free of overflow exactly up to the last whole GiB
      of the 64-bit range. */
  lemma RoundUpBytesExact(n: int)
    requires Int64(n)
    ensures n <= MAX_INT - GIB + 1 <==> RoundUpBytes(n) >= n
    ensures n <= MAX_INT - GIB + 1 ==>
      RoundUpBytes(n) - n < GIB && RoundUpBytes(n) % GIB == 0 && RoundUpBytes(RoundUpBytes(n)) == RoundUpBytes(n)
  {
    var g := RoundUpGiB(n);
    if n <= MAX_INT - GIB + 1 {
      RoundUpIff(n, 0x1_FFFF_FFFF);
      assert RoundUpBytes(n) == g * GIB;
      assert RoundUpGiB(g * GIB) == g;
    } else {
      assert g == 0x2_0000_0000;
    }
  }

  // ---------------------------------------------------------------- CreateVolume

  /** What a successful CreateVolume tells its caller, and the size field it sends to Azure. */
  datatype Created = Created(capacityBytes: int, diskSizeGB: int)

  function MinimumGiB(performancePlus: bool): int {
    if performancePlus then PERFORMANCE_PLUS_GIB else MINIMUM_GIB
  }

  /** A disk of g GiB serves the request. */
  predicate Serves(g: int, requiredBytes: int, performancePlus: bool) {
    requiredBytes <= g * GIB && MinimumGiB(performancePlus) <= g
  }

  ghost predicate Least(g: int, requiredBytes: int, performancePlus: bool) {
    Serves(g, requiredBytes, performancePlus) && forall h :: Serves(h, requiredBytes, performancePlus) ==> g <= h
  }

  /** The answer CreateVolume gives, as a relation on requests and answers. */
  ghost predicate Answers(requiredBytes: int, limitBytes: int, performancePlus: bool, a: Created) {
    exists g :: Least(g, requiredBytes, performancePlus)
      && !(limitBytes > 0 && limitBytes <= (g - 1) * GIB) && a == Created(Wrap64(g * GIB), Wrap32(g))
  }

  /** The sizing of CreateVolume: the least whole number of GiB that serves the request; refused
      exactly when a positive limit, rounded up, lies below it. */
  method CreateVolumeSize(requiredBytes: int, limitBytes: int, performancePlus: bool)
    returns (r: Option<Created>)
    requires Int64(requiredBytes) && Int64(limitBytes)
    ensures r.None? <==> limitBytes > 0 && !Serves(RoundUpGiB(limitBytes), requiredBytes, performancePlus)
    ensures r.Some? ==> Answers(requiredBytes, limitBytes, performancePlus, r.value)
  {
    var requestGiB := RoundUpGiB(requiredBytes);
    if performancePlus && requestGiB < PERFORMANCE_PLUS_GIB {
      requestGiB := PERFORMANCE_PLUS_GIB;
    }
    if requestGiB < MINIMUM_GIB {
      requestGiB := MINIMUM_GIB;
    }
    forall h | Serves(h, requiredBytes, performancePlus) ensures requestGiB <= h { RoundUpIff(requiredBytes, h); }
    assert Least(requestGiB, requiredBytes, performancePlus);
    var maxVolSize := RoundUpGiB(limitBytes);
    if maxVolSize > 0 && maxVolSize < requestGiB {
      return None;
    }
    r := Some(Created(GiBToBytes(requestGiB), Wrap32(requestGiB)));
  }

  const LARGEST_REQUEST := MAX_INT32 * GIB

  /** The reported capacity is the size of the created disk exactly when the required bytes fit
      2^31 - 1 GiB; above that the size field or the capacity has wrapped. */
  lemma CapacityIsDiskSizeIff(requiredBytes: int, limitBytes: int, performancePlus: bool, a: Created)
    requires Int64(requiredBytes) && Answers(requiredBytes, limitBytes, performancePlus, a)
    ensures a.capacityBytes == a.diskSizeGB * 1073741824 <==> requiredBytes <= 0x7FFF_FFFF * 1073741824
  {
    var g :| Least(g, requiredBytes, performancePlus)
      && !(limitBytes > 0 && limitBytes <= (g - 1) * GIB) && a == Created(Wrap64(g * GIB), Wrap32(g));
    LeastRange(requiredBytes, performancePlus, g);
  }

  lemma LeastRange(requiredBytes: int, performancePlus: bool, g: int)
    requires Int64(requiredBytes) && Least(g, requiredBytes, performancePlus)
    ensures 1 <= g <= 0x2_0000_0000
    ensures g <= MAX_INT32 <==> requiredBytes <= LARGEST_REQUEST
    ensures g == MinimumGiB(performancePlus) || (g - 1) * GIB < requiredBytes
  {
    assert Serves(0x2_0000_0000, requiredBytes, performancePlus);
    if requiredBytes <= LARGEST_REQUEST {
      assert Serves(MAX_INT32, requiredBytes, performancePlus);
    }
    assert !Serves(g - 1, requiredBytes, performancePlus);
  }

  /** For requests that fit, the capacity is a whole number of GiB that holds the required bytes
      and the applicable minimum, wastes less than a GiB beyond them, and stays within a positive
      limit rounded up to GiB. */
  lemma CapacityServesRequest(requiredBytes: int, limitBytes: int, performancePlus: bool, a: Created)
    requires Int64(requiredBytes) && requiredBytes <= LARGEST_REQUEST
    requires Answers(requiredBytes, limitBytes, performancePlus, a)
    ensures a.capacityBytes % 1073741824 == 0 && requiredBytes <= a.capacityBytes
    ensures var minimum := if performancePlus then 513 * 1073741824 else 1073741824;
      minimum <= a.capacityBytes && (a.capacityBytes == minimum || a.capacityBytes - requiredBytes < 1073741824)
    ensures limitBytes > 0 ==> a.capacityBytes - limitBytes < 1073741824
  {
    var g :| Least(g, requiredBytes, performancePlus)
      && !(limitBytes > 0 && limitBytes <= (g - 1) * GIB) && a == Created(Wrap64(g * GIB), Wrap32(g));
    LeastRange(requiredBytes, performancePlus, g);
    assert a.capacityBytes == g * GIB;
    if limitBytes > 0 && RoundUpGiB(limitBytes) < g { RoundUpIff(limitBytes, g - 1); assert false; }
  }

  /** The limit as the caller wrote it is kept exactly when it is itself a whole number of GiB or
      the disk is smaller than the rounded-up limit. */
  lemma CapacityWithinLimitIff(requiredBytes: int, limitBytes: int, performancePlus: bool, a: Created)
    requires Int64(requiredBytes) && requiredBytes <= LARGEST_REQUEST && limitBytes > 0
    requires Answers(requiredBytes, limitBytes, performancePlus, a)
    ensures a.capacityBytes <= limitBytes <==>
      limitBytes % GIB == 0
      || (requiredBytes <= limitBytes / GIB * GIB && MinimumGiB(performancePlus) <= limitBytes / GIB)
  {
    var g :| Least(g, requiredBytes, performancePlus)
      && !(limitBytes > 0 && limitBytes <= (g - 1) * GIB) && a == Created(Wrap64(g * GIB), Wrap32(g));
    LeastRange(requiredBytes, performancePlus, g);
    var f := limitBytes / GIB;
    assert g <= f <==> Serves(f, requiredBytes, performancePlus);
  }

  /** A one-byte limit is answered with a whole GiB. */
  lemma LimitExceeded()
    ensures Answers(1, 1, false, Created(GIB, 1)) && GIB > 1
  {
    assert Least(1, 1, false);
  }

  // ---------------------------------------------------------------- ResizeDisk

  datatype DiskState = Unattached | Attached | OtherState

  /** The managed disk as Azure keeps it. */
  class ManagedDisk {
    var sizeGB: int
    var state: DiskState

    constructor (sizeGB: int, state: DiskState)
      ensures this.sizeGB == sizeGB && this.state == state
    {
      this.sizeGB, this.state := sizeGB, state;
    }
  }

  /** How the calls into Azure go: whether the disk can be fetched with its size, whether the
      patch reports success and whether it takes effect. A failing patch may or may not. */
  datatype Cloud = Cloud(getOk: bool, hasSize: bool, patchOk: bool, patchApplied: bool)

  predicate Honest(cloud: Cloud) { cloud.patchOk ==> cloud.patchApplied }

  datatype ResizeError = GetFailed | NoSize | TooBig | NotUnattached | PatchFailed

  /** The int32 rounding of the cloud-provider helpers: an error above the width. */
  function RoundUpToGiBInt32(n: int): (r: Option<int>)
    requires n >= MIN_INT
    ensures r.Some? <==> n <= 0x7FFF_FFFF * 1073741824
    ensures r.Some? ==> (r.value - 1) * GIB < n <= r.value * GIB
  {
    var g := RoundUpGiB(n);
    if g <= MAX_INT32 then Some(g) else None
  }

  /** ResizeDisk. The disk never shrinks; on success it holds the requested bytes and the answer
      is the request rounded up; the size changes only by reaching that value. */
  method ResizeDisk(disk: ManagedDisk, newSize: int, online: bool, cloud: Cloud)
    returns (r: Result<int, ResizeError>)
    requires Int64(newSize) && Honest(cloud)
    modifies disk`sizeGB
    ensures disk.sizeGB >= old(disk.sizeGB)
    ensures r.Ok? ==> newSize <= disk.sizeGB * GIB && r.value == RoundUpGiB(newSize) * GIB
    ensures disk.sizeGB != old(disk.sizeGB) ==> disk.sizeGB == RoundUpGiB(newSize) <= MAX_INT32 && cloud.patchApplied
    ensures r.Ok? <==>
      cloud.getOk && cloud.hasSize && newSize <= 0x7FFF_FFFF * 1073741824
      && (newSize <= old(disk.sizeGB) * GIB || ((online || disk.state == Unattached) && cloud.patchOk))
    ensures r == Err(NotUnattached) ==> !online && disk.state != Unattached && disk.sizeGB == old(disk.sizeGB)
  {
    if !cloud.getOk { return Err(GetFailed); }
    if !cloud.hasSize { return Err(NoSize); }
    var rounded := RoundUpToGiBInt32(newSize);
    if rounded.None? { return Err(TooBig); }
    var requestGiB := rounded.value;
    if disk.sizeGB >= requestGiB { return Ok(requestGiB * GIB); }
    if !online && disk.state != Unattached { return Err(NotUnattached); }
    if cloud.patchApplied { disk.sizeGB := requestGiB; }
    if !cloud.patchOk { return Err(PatchFailed); }
    return Ok(requestGiB * GIB);
  }

  // ---------------------------------------------------------------- NodeExpandVolume

  /** The closing check: the request less the header, against the size read back. */
  predicate SizeCheckPasses(requiredBytes: int, deviceBytes: int) {
    RoundUpGiB(deviceBytes) >= RoundUpGiB(Wrap64(requiredBytes - LUKS_HEADER))
  }

  /** The mapped device of a LUKS disk. */
  function DeviceBytes(diskGB: int): int { diskGB * GIB - LUKS_HEADER }

  /** The outcome of NodeExpandVolume on a file system volume, once the crypt device is resized:
      growing the file system may fail and the check still decides. */
  function NodeExpand(requiredBytes: int, deviceBytes: int, resizeFailed: bool): Result<int, bool> {
    if SizeCheckPasses(requiredBytes, deviceBytes) then Ok(deviceBytes) else Err(resizeFailed)
  }

  /** On the device of a disk of g GiB the check passes exactly when g GiB hold the request less
      one header: rounding both sides hides the header of the device, not that of the request. */
  lemma SizeCheckIff(requiredBytes: int, diskGB: int)
    requires MIN_INT + LUKS_HEADER <= requiredBytes <= MAX_INT
    ensures SizeCheckPasses(requiredBytes, DeviceBytes(diskGB)) <==> requiredBytes - LUKS_HEADER <= diskGB * GIB
  {
    assert Wrap64(requiredBytes - LUKS_HEADER) == requiredBytes - LUKS_HEADER;
    assert RoundUpGiB(DeviceBytes(diskGB)) == diskGB;
    RoundUpIff(requiredBytes - LUKS_HEADER, diskGB);
  }

  /** A request so negative that taking the header off wraps around asks for more than any disk. */
  lemma WrappedRequestFails(requiredBytes: int, diskGB: int)
    requires MIN_INT <= requiredBytes < MIN_INT + LUKS_HEADER && diskGB <= MAX_INT32
    ensures !SizeCheckPasses(requiredBytes, DeviceBytes(diskGB))
  {
    var wrapped := requiredBytes - LUKS_HEADER + 0x1_0000_0000_0000_0000;
    assert Wrap64(requiredBytes - LUKS_HEADER) == wrapped;
    RoundUpIff(wrapped, MAX_INT32);
    RoundUpIff(DeviceBytes(diskGB), diskGB);
  }

  /** NodeExpandVolume for every request and every disk: it reports the device exactly when taking
      the header off the request does not wrap and the disk holds the request less one header;
      otherwise it fails, with the error of growing the file system if there was one. */
  lemma NodeExpandIff(requiredBytes: int, diskGB: int, resizeFailed: bool)
    requires Int64(requiredBytes) && diskGB <= MAX_INT32
    ensures NodeExpand(requiredBytes, DeviceBytes(diskGB), resizeFailed)
         == if MIN_INT + 16777216 <= requiredBytes && requiredBytes - 16777216 <= diskGB * 1073741824
            then Ok(diskGB * 1073741824 - 16777216) else Err(resizeFailed)
  {
    if MIN_INT + LUKS_HEADER <= requiredBytes {
      SizeCheckIff(requiredBytes, diskGB);
    } else {
      WrappedRequestFails(requiredBytes, diskGB);
    }
  }

  /** So it can pass on a disk that was never grown: a request one byte above the disk. */
  lemma SizeCheckMissesSmallDisk(diskGB: int)
    requires 1 <= diskGB <= MAX_INT32
    ensures SizeCheckPasses(diskGB * GIB + 1, DeviceBytes(diskGB))
  {
    SizeCheckIff(diskGB * GIB + 1, diskGB);
  }

  /** The check, on every disk that holds the request. */
  lemma ExpansionPasses(requiredBytes: int, diskGB: int)
    requires Int64(requiredBytes) && 0 <= diskGB <= MAX_INT32 && requiredBytes <= diskGB * GIB
    ensures SizeCheckPasses(requiredBytes, DeviceBytes(diskGB)) <==> MIN_INT + LUKS_HEADER <= requiredBytes
  {
    if MIN_INT + LUKS_HEADER <= requiredBytes {
      SizeCheckIff(requiredBytes, diskGB);
    } else {
      WrappedRequestFails(requiredBytes, diskGB);
    }
  }

  /** The whole expansion: when the controller's part succeeds, the node's part succeeds on the
      resized device for every request, except those so negative that subtracting the header
      wraps around; for these it always fails. */
  method Expand(disk: ManagedDisk, requiredBytes: int, online: bool, cloud: Cloud, resizeFailed: bool)
    returns (controller: Option<int>, node: Option<int>)
    requires Int64(requiredBytes) && Honest(cloud) && 0 <= disk.sizeGB <= MAX_INT32
    modifies disk`sizeGB
    ensures old(disk.sizeGB) <= disk.sizeGB <= MAX_INT32
    ensures controller.Some? ==> requiredBytes != 0 && requiredBytes <= controller.value <= disk.sizeGB * GIB
    ensures controller.Some? ==> (node.Some? <==> MIN_INT + LUKS_HEADER <= requiredBytes)
    ensures node.Some? ==> controller.Some? && node.value == DeviceBytes(disk.sizeGB)
  {
    if requiredBytes == 0 { return None, None; }
    var resized := ResizeDisk(disk, requiredBytes, online, cloud);
    if resized.Err? { return None, None; }
    controller := Some(resized.value);
    RoundUpIff(requiredBytes, disk.sizeGB);
    ExpansionPasses(requiredBytes, disk.sizeGB);
    var expanded := NodeExpand(requiredBytes, DeviceBytes(disk.sizeGB), resizeFailed);
    node := if expanded.Ok? then Some(expanded.value) else None;
  }
}
