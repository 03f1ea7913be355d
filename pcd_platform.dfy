/**
 * The pseudo character platform driver: the id and configuration tables, probe and remove
 * for each matched platform device, and module init and cleanup, as kernel calls on the ledger.
 */
module PcdPlatform {
  import opened Kernel
  import opened Ledger

  /** Device numbers module init reserves, one per platform device the driver can serve. */
  const MAX_DEVICES: nat := 2

  /** One entry of pcdev_config. */
  datatype DeviceConfig = DeviceConfig(item1: int, item2: int)

  const PcdevConfig: seq<DeviceConfig> := [
    DeviceConfig(60, 21),
    DeviceConfig(50, 22),
    DeviceConfig(40, 23),
    DeviceConfig(30, 24)
  ]

  /** One entry of a platform id table: a device name and the index it carries. An empty name ends the table. */
  datatype IdEntry = IdEntry(name: string, driverData: nat)

  /** pcdevs_ids: the four supported names, each carrying its pcdev_config index, then the null entry. */
  const PcdevsIds: seq<IdEntry> := [
    IdEntry("pcdev-A1x", 0),
    IdEntry("pcdev-B1x", 1),
    IdEntry("pcdev-C1x", 2),
    IdEntry("pcdev-D1x", 3),
    IdEntry("", 0)
  ]

  /**
   * The id-table lookup the platform bus makes for a device called `name`: the first entry from
   * `k` on with that name, looking no further than the entry that ends the table.
   */
  function MatchFrom(ids: seq<IdEntry>, name: string, k: nat): (r: Option<nat>)
    decreases |ids| - k
    ensures r.Some? ==> k <= r.value < |ids| && ids[r.value].name == name && name != ""
    ensures r.Some? ==> forall j :: k <= j < r.value ==> ids[j].name != "" && ids[j].name != name
    ensures r.None? ==> forall j :: k <= j < |ids| && ids[j].name == name ==> exists e :: k <= e <= j && ids[e].name == ""
  {
    if k >= |ids| || ids[k].name == "" then None
    else if ids[k].name == name then Some(k)
    else MatchFrom(ids, name, k + 1)
  }

  /** The id table ends with its null entry, its names are distinct, and each maps to its own pcdev_config entry. */
  lemma IdTableWellFormed()
    ensures |PcdevsIds| == |PcdevConfig| + 1 && PcdevsIds[|PcdevConfig|].name == ""
    ensures forall k :: 0 <= k < |PcdevConfig| ==> PcdevsIds[k].name != "" && PcdevsIds[k].driverData == k
    ensures forall j, k :: 0 <= j < k < |PcdevConfig| ==> PcdevsIds[j].name != PcdevsIds[k].name
    ensures forall k :: 0 <= k < |PcdevConfig| ==> PcdevConfig[k] == DeviceConfig(60 - 10 * k, 21 + k)
  {
    assert PcdevsIds[0].name[6] == 'A' && PcdevsIds[1].name[6] == 'B';
    assert PcdevsIds[2].name[6] == 'C' && PcdevsIds[3].name[6] == 'D';
  }

  /** Each supported name matches its own entry, so the config index probe reads is in bounds. */
  lemma IdTableMatches(k: nat)
    requires k < |PcdevConfig|
    ensures MatchFrom(PcdevsIds, PcdevsIds[k].name, 0) == Some(k)
    ensures PcdevsIds[k].driverData < |PcdevConfig|
  {
    IdTableWellFormed();
  }

  /** What a board file registers with a platform device: buffer size, permission word and serial number. */
  datatype PlatformData = PlatformData(size: int, perm: int, serial: string)

  /** A platform device the bus hands to probe and remove: an identity, its id, and its platform data if any. */
  datatype PlatformDevice = PlatformDevice(handle: nat, id: int, platformData: Option<PlatformData>)

  /** Where pcdrv_data.device_pcd points: nowhere yet, the device last created, or an error. */
  datatype DeviceRef = NoDevice | DeviceNode(dev: int) | DeviceError(err: int)

  /** The first step of probe that fails, with the error it reports. */
  datatype ProbeFault =
    | NoProbeFault
    | PrivAllocFault                  // devm_kzalloc of the private record returns NULL
    | BufferAllocFault                // devm_kzalloc of the buffer returns NULL
    | CdevAddFault(err: int)          // cdev_add returns a negative errno
    | DeviceCreateFault(err: int)     // device_create returns an error pointer
  {
    predicate Valid() {
      (CdevAddFault? || DeviceCreateFault?) ==> err < 0
    }
  }

  /** devm_kzalloc of the buffer fails: the oracle says so, or a negative size turns into a huge size_t. */
  predicate BufferFails(pdata: PlatformData, f: ProbeFault) {
    f.BufferAllocFault? || pdata.size < 0
  }

  /** The device number probe gives the device. */
  function DevNum(base: int, pdev: PlatformDevice): int {
    base + pdev.id
  }

  /** pcd_platform_driver_probe gets as far as cdev_add. */
  predicate ReachesCdevAdd(pdev: PlatformDevice, f: ProbeFault) {
    pdev.platformData.Some? && !f.PrivAllocFault? && !BufferFails(pdev.platformData.value, f)
  }

  /** What pcd_platform_driver_probe returns. */
  function ProbeRet(pdev: PlatformDevice, f: ProbeFault): int {
    if pdev.platformData.None? then -EINVAL
    else if f.PrivAllocFault? || BufferFails(pdev.platformData.value, f) then -ENOMEM
    else if f.CdevAddFault? || f.DeviceCreateFault? then f.err
    else 0
  }

  /** The kernel calls steps 5 and 6 of probe make for device number `d`: cdev_add, then device_create or, when that fails, cdev_del. */
  function CdevOps(d: int, f: ProbeFault): seq<Op> {
    if f.CdevAddFault? then []
    else if f.DeviceCreateFault? then [Acquire(Cdev(d)), Release(Cdev(d))]
    else [Acquire(Cdev(d)), Acquire(DevFile(d))]
  }

  /** The kernel calls pcd_platform_driver_probe makes. */
  function ProbeOps(base: int, pdev: PlatformDevice, f: ProbeFault): seq<Op> {
    if ReachesCdevAdd(pdev, f) then CdevOps(DevNum(base, pdev), f) else []
  }

  /** The kernel calls pcd_platform_driver_remove makes for the device numbered `d`. */
  function RemoveOps(d: int): seq<Op> {
    [Release(DevFile(d)), Release(Cdev(d))]
  }

  /** Probe succeeds exactly when there is platform data, a non-negative size and no step fails; every failure is a negative errno. */
  lemma ProbeReturns(base: int, pdev: PlatformDevice, f: ProbeFault)
    requires f.Valid()
    ensures ProbeRet(pdev, f) == 0 <==> ReachesCdevAdd(pdev, f) && f.NoProbeFault?
    ensures ProbeRet(pdev, f) != 0 ==> ProbeRet(pdev, f) < 0
    ensures pdev.platformData.None? ==> ProbeRet(pdev, f) == -EINVAL && ProbeOps(base, pdev, f) == []
    ensures ProbeRet(pdev, f) == 0 <==> Acquire(DevFile(DevNum(base, pdev))) in ProbeOps(base, pdev, f)
  {
  }

  /** The number range module init reserved, the class, and the registered driver: what a loaded module holds. */
  function LoadedHeld(base: int): set<Token> {
    {Region(base, MAX_DEVICES), Class, Driver}
  }

  /**
   * With the region and class held and the device's number free, probe is sound. On success it
   * holds the device's cdev and device file besides; on every failure it holds what it held before.
   */
  lemma ProbeSound(held: set<Token>, base: int, pdev: PlatformDevice, f: ProbeFault)
    requires f.Valid()
    requires Region(base, MAX_DEVICES) in held && Class in held
    requires 0 <= pdev.id < MAX_DEVICES
    requires Cdev(DevNum(base, pdev)) !in held && DevFile(DevNum(base, pdev)) !in held
    ensures Disciplined(held, ProbeOps(base, pdev, f))
    ensures ProbeRet(pdev, f) == 0 ==> Replay(held, ProbeOps(base, pdev, f)) == held + {Cdev(DevNum(base, pdev)), DevFile(DevNum(base, pdev))}
    ensures ProbeRet(pdev, f) != 0 ==> Replay(held, ProbeOps(base, pdev, f)) == held
  {
    var d := DevNum(base, pdev);
    var c := Cdev(d);
    if ReachesCdevAdd(pdev, f) && !f.CdevAddFault? {
      assert Covers(Region(base, MAX_DEVICES), d);
      assert Legal(held, Acquire(c));
      if f.DeviceCreateFault? {
        forall u | u in held + {c} ensures !BuiltOn(u, c) {
        }
        DisciplinedTwo(held, Acquire(c), Release(c));
        assert held + {c} - {c} == held;
      } else {
        assert Legal(held + {c}, Acquire(DevFile(d)));
        DisciplinedTwo(held, Acquire(c), Acquire(DevFile(d)));
        assert held + {c} + {DevFile(d)} == held + {c, DevFile(d)};
      }
    }
  }

  /** Remove takes back exactly what a successful probe acquired, last first, and is sound right after it. */
  lemma ProbeRemoveRestores(held: set<Token>, base: int, pdev: PlatformDevice, f: ProbeFault)
    requires f.Valid() && ProbeRet(pdev, f) == 0
    requires Region(base, MAX_DEVICES) in held && Class in held
    requires 0 <= pdev.id < MAX_DEVICES
    requires Cdev(DevNum(base, pdev)) !in held && DevFile(DevNum(base, pdev)) !in held
    ensures RemoveOps(DevNum(base, pdev)) == Undo(ProbeOps(base, pdev, f))
    ensures Disciplined(held, ProbeOps(base, pdev, f) + RemoveOps(DevNum(base, pdev)))
    ensures Replay(held, ProbeOps(base, pdev, f) + RemoveOps(DevNum(base, pdev))) == held
  {
    var d := DevNum(base, pdev);
    var after := held + {Cdev(d), DevFile(d)};
    ProbeSound(held, base, pdev, f);
    forall u | u in after ensures !BuiltOn(u, DevFile(d)) {
    }
    forall u | u in after - {DevFile(d)} ensures !BuiltOn(u, Cdev(d)) {
    }
    DisciplinedTwo(after, Release(DevFile(d)), Release(Cdev(d)));
    assert after - {DevFile(d)} - {Cdev(d)} == held;
    Chain(ProbeOps(base, pdev, f) + RemoveOps(d), held, ProbeOps(base, pdev, f), after, RemoveOps(d), held);
  }

  /**
   * As written, probe never checks the device's id against MAX_DEVICES: a device with id
   * MAX_DEVICES probes successfully, registering a cdev with a number module init never reserved.
   */
  lemma ProbeAcceptsOutOfRangeId(base: int, data: PlatformData)
    requires data.size >= 0
    ensures var pdev := PlatformDevice(0, MAX_DEVICES, Some(data));
      ProbeRet(pdev, NoProbeFault) == 0 && !Disciplined(LoadedHeld(base), ProbeOps(base, pdev, NoProbeFault))
  {
    var pdev := PlatformDevice(0, MAX_DEVICES, Some(data));
    var d := DevNum(base, pdev);
    assert forall r :: r in LoadedHeld(base) ==> !Covers(r, d);
    assert !Legal(LoadedHeld(base), Acquire(Cdev(d)));
  }

  /** Probe with the evidently intended bound: an id outside the reserved range is refused before anything is allocated. */
  function CheckedProbeRet(pdev: PlatformDevice, f: ProbeFault): int {
    if pdev.platformData.Some? && !(0 <= pdev.id < MAX_DEVICES) then -EINVAL else ProbeRet(pdev, f)
  }

  function CheckedProbeOps(base: int, pdev: PlatformDevice, f: ProbeFault): seq<Op> {
    if pdev.platformData.Some? && !(0 <= pdev.id < MAX_DEVICES) then [] else ProbeOps(base, pdev, f)
  }

  /**
   * The checked probe is sound from every loaded state whatever the device's id, succeeds only for
   * ids in the reserved range, and does what the unchecked one does for those.
   */
  lemma CheckedProbeSound(held: set<Token>, base: int, pdev: PlatformDevice, f: ProbeFault)
    requires f.Valid()
    requires Region(base, MAX_DEVICES) in held && Class in held
    requires Cdev(DevNum(base, pdev)) !in held && DevFile(DevNum(base, pdev)) !in held
    ensures Disciplined(held, CheckedProbeOps(base, pdev, f))
    ensures CheckedProbeRet(pdev, f) == 0 ==> 0 <= pdev.id < MAX_DEVICES
    ensures CheckedProbeRet(pdev, f) != 0 ==> Replay(held, CheckedProbeOps(base, pdev, f)) == held
    ensures 0 <= pdev.id < MAX_DEVICES ==>
      CheckedProbeRet(pdev, f) == ProbeRet(pdev, f) && CheckedProbeOps(base, pdev, f) == ProbeOps(base, pdev, f)
  {
    if 0 <= pdev.id < MAX_DEVICES {
      ProbeSound(held, base, pdev, f);
    }
  }

  /** The first step of module init that fails, with the error it reports. */
  datatype LoadFault =
    | NoLoadFault
    | RegionRefused(err: int)     // alloc_chrdev_region
    | ClassRefused(err: int)      // class_create
    | RegisterRefused(err: int)   // platform_driver_register
  {
    predicate Valid() {
      !NoLoadFault? ==> err < 0
    }
  }

  /** The kernel calls pcd_platform_driver_init makes, as written. */
  function LoadOps(base: int, f: LoadFault): seq<Op> {
    var region := Region(base, MAX_DEVICES);
    match f
    case RegionRefused(_) => []
    case ClassRefused(_) => [Acquire(region), Release(region)]
    case RegisterRefused(_) => [Acquire(region), Acquire(Class)]
    case NoLoadFault => [Acquire(region), Acquire(Class), Acquire(Driver)]
  }

  /** What pcd_platform_driver_init returns, as written: the result of platform_driver_register is dropped. */
  function LoadRet(f: LoadFault): int {
    match f
    case RegionRefused(err) => err
    case ClassRefused(err) => err
    case _ => 0
  }

  /** The kernel calls pcd_platform_driver_cleanup makes once every bound device is removed. */
  function UnloadOps(base: int): seq<Op> {
    [Release(Driver), Release(Class), Release(Region(base, MAX_DEVICES))]
  }

  /** A successful init is sound and leaves the region, the class and the driver held. */
  lemma LoadSucceeds(base: int)
    ensures LoadRet(NoLoadFault) == 0
    ensures Disciplined({}, LoadOps(base, NoLoadFault))
    ensures Replay({}, LoadOps(base, NoLoadFault)) == LoadedHeld(base)
  {
    var region := Region(base, MAX_DEVICES);
    DisciplinedTwo({}, Acquire(region), Acquire(Class));
    assert Covers(region, base);
    DisciplinedOne({region, Class}, Acquire(Driver));
    ReplayOne({region, Class}, Acquire(Driver));
    Chain(LoadOps(base, NoLoadFault), {}, [Acquire(region), Acquire(Class)], {region, Class}, [Acquire(Driver)], LoadedHeld(base));
  }

  /** A region or class failure returns its error, soundly, with nothing held: the class path gives back all MAX_DEVICES numbers. */
  lemma LoadFailureHoldsNothing(base: int, f: LoadFault)
    requires f.Valid() && (f.RegionRefused? || f.ClassRefused?)
    ensures LoadRet(f) < 0
    ensures Disciplined({}, LoadOps(base, f))
    ensures Replay({}, LoadOps(base, f)) == {}
  {
    if f.ClassRefused? {
      DisciplinedTwo({}, Acquire(Region(base, MAX_DEVICES)), Release(Region(base, MAX_DEVICES)));
    }
  }

  /** Cleanup takes back what a successful init acquired, last first, soundly, leaving nothing held. */
  lemma UnloadUndoesLoad(base: int)
    ensures UnloadOps(base) == Undo(LoadOps(base, NoLoadFault))
    ensures Disciplined(LoadedHeld(base), UnloadOps(base))
    ensures Replay(LoadedHeld(base), UnloadOps(base)) == {}
  {
    var region := Region(base, MAX_DEVICES);
    var h := LoadedHeld(base);
    assert forall u :: u in h ==> !BuiltOn(u, Driver);
    assert forall u :: u in h - {Driver} ==> !BuiltOn(u, Class);
    DisciplinedTwo(h, Release(Driver), Release(Class));
    assert h - {Driver} - {Class} == {region};
    DisciplinedOne({region}, Release(region));
    ReplayOne({region}, Release(region));
    Chain(UnloadOps(base), h, [Release(Driver), Release(Class)], {region}, [Release(region)], {});
  }

  /**
   * As written, a refused driver registration still reports success: the module stays loaded
   * with no driver, and its cleanup then unregisters a driver that is not registered.
   */
  lemma RegisterResultIgnored(base: int, err: int)
    requires err < 0
    ensures LoadRet(RegisterRefused(err)) == 0
    ensures Driver !in Replay({}, LoadOps(base, RegisterRefused(err)))
    ensures !Disciplined(Replay({}, LoadOps(base, RegisterRefused(err))), UnloadOps(base))
  {
    DisciplinedTwo({}, Acquire(Region(base, MAX_DEVICES)), Acquire(Class));
  }

  /** Init with the evidently intended check of platform_driver_register: a refusal unwinds the class and the region and is returned. */
  function CheckedLoadOps(base: int, f: LoadFault): seq<Op> {
    var region := Region(base, MAX_DEVICES);
    if f.RegisterRefused? then [Acquire(region), Acquire(Class), Release(Class), Release(region)] else LoadOps(base, f)
  }

  function CheckedLoadRet(f: LoadFault): int {
    if f.RegisterRefused? then f.err else LoadRet(f)
  }

  /** The checked init reports success exactly when the driver ends up registered, and a failure leaves nothing held. */
  lemma CheckedLoadSound(base: int, f: LoadFault)
    requires f.Valid()
    ensures Disciplined({}, CheckedLoadOps(base, f))
    ensures CheckedLoadRet(f) == 0 <==> Driver in Replay({}, CheckedLoadOps(base, f))
    ensures CheckedLoadRet(f) == 0 ==> Replay({}, CheckedLoadOps(base, f)) == LoadedHeld(base)
    ensures CheckedLoadRet(f) != 0 ==> CheckedLoadRet(f) < 0 && Replay({}, CheckedLoadOps(base, f)) == {}
  {
    var region := Region(base, MAX_DEVICES);
    if f.NoLoadFault? {
      LoadSucceeds(base);
    } else if f.RegisterRefused? {
      var setup := [Acquire(region), Acquire(Class)];
      var undo := [Release(Class), Release(region)];
      DisciplinedTwo({}, Acquire(region), Acquire(Class));
      assert forall u :: u in {region, Class} ==> !BuiltOn(u, Class);
      DisciplinedTwo({region, Class}, Release(Class), Release(region));
      assert {region, Class} - {Class} == {region};
      Chain(CheckedLoadOps(base, f), {}, setup, {region, Class}, undo, {});
    } else {
      LoadFailureHoldsNothing(base, f);
    }
  }

  /** The cdev and device-file tokens of the devices numbered in `nums`. */
  function DeviceTokens(nums: seq<int>): (r: set<Token>)
    ensures forall t :: t in r ==> (t.Cdev? || t.DevFile?) && t.dev in nums
    ensures forall k :: 0 <= k < |nums| ==> Cdev(nums[k]) in r && DevFile(nums[k]) in r
  {
    if nums == [] then {} else {Cdev(nums[0]), DevFile(nums[0])} + DeviceTokens(nums[1..])
  }

  /** The kernel calls of removing the devices numbered `nums`, in that order. */
  function DetachOps(nums: seq<int>): seq<Op> {
    if nums == [] then [] else RemoveOps(nums[0]) + DetachOps(nums[1..])
  }

  lemma {:induction false} DetachOpsSnoc(nums: seq<int>, d: int)
    ensures DetachOps(nums + [d]) == DetachOps(nums) + RemoveOps(d)
    decreases |nums|
  {
    if nums == [] {
      assert nums + [d] == [d] && [d][1..] == [];
      assert RemoveOps(d) + [] == RemoveOps(d);
    } else {
      assert (nums + [d])[1..] == nums[1..] + [d];
      DetachOpsSnoc(nums[1..], d);
    }
  }

  /** Removing devices whose cdevs and device files are held, each once, is sound and drops exactly their tokens. */
  lemma {:induction false} DetachEffect(held: set<Token>, nums: seq<int>)
    requires forall j, k :: 0 <= j < k < |nums| ==> nums[j] != nums[k]
    requires forall k :: 0 <= k < |nums| ==> Cdev(nums[k]) in held && DevFile(nums[k]) in held
    ensures Disciplined(held, DetachOps(nums))
    ensures Replay(held, DetachOps(nums)) == held - DeviceTokens(nums)
    decreases |nums|
  {
    if nums == [] {
    } else {
      var d := nums[0];
      var rest := held - {DevFile(d), Cdev(d)};
      forall u | u in held ensures !BuiltOn(u, DevFile(d)) {
      }
      forall u | u in held - {DevFile(d)} ensures !BuiltOn(u, Cdev(d)) {
      }
      DisciplinedTwo(held, Release(DevFile(d)), Release(Cdev(d)));
      assert held - {DevFile(d)} - {Cdev(d)} == rest;
      forall k | 0 <= k < |nums[1..]| ensures Cdev(nums[1..][k]) in rest && DevFile(nums[1..][k]) in rest {
        assert nums[1..][k] == nums[k + 1] != d;
      }
      DetachEffect(rest, nums[1..]);
      Chain(DetachOps(nums), held, RemoveOps(d), rest, DetachOps(nums[1..]), held - DeviceTokens(nums));
    }
  }

  /** One more removal extends the detach log by that device's calls. */
  lemma DetachStep(log0: seq<Op>, nums: seq<int>, d: int, log: seq<Op>)
    requires log == log0 + DetachOps(nums) + RemoveOps(d)
    ensures log == log0 + DetachOps(nums + [d])
  {
    DetachOpsSnoc(nums, d);
  }

  /** One more removal extends the record of removed handles and their numbers. */
  lemma OrderStep(orig: map<nat, DevicePrivate>, before: map<nat, DevicePrivate>, after: map<nat, DevicePrivate>,
                  order: seq<nat>, nums: seq<int>, h: nat)
    requires h in before && h in orig && before[h] == orig[h] && after == before - {h}
    requires |nums| == |order|
    requires forall k :: 0 <= k < |order| ==> order[k] in orig && order[k] !in before && nums[k] == orig[order[k]].devNum
    requires forall j, k :: 0 <= j < k < |order| ==> order[j] != order[k]
    ensures forall k :: 0 <= k < |order + [h]| ==>
      (order + [h])[k] in orig && (order + [h])[k] !in after && (nums + [orig[h].devNum])[k] == orig[(order + [h])[k]].devNum
    ensures forall j, k :: 0 <= j < k < |order + [h]| ==> (order + [h])[j] != (order + [h])[k]
  {
  }

  /** A loaded module's own tokens are none of its devices' tokens. */
  lemma LoadedApart(base: int, nums: seq<int>)
    ensures LoadedHeld(base) + DeviceTokens(nums) - DeviceTokens(nums) == LoadedHeld(base)
  {
    assert LoadedHeld(base) !! DeviceTokens(nums);
  }

  /** Cleanup of a loaded module whose probed devices have the distinct numbers `nums` is sound and leaves nothing held. */
  lemma UnloadAfterProbes(base: int, nums: seq<int>)
    requires forall j, k :: 0 <= j < k < |nums| ==> nums[j] != nums[k]
    ensures Disciplined(LoadedHeld(base) + DeviceTokens(nums), DetachOps(nums) + UnloadOps(base))
    ensures Replay(LoadedHeld(base) + DeviceTokens(nums), DetachOps(nums) + UnloadOps(base)) == {}
  {
    var held := LoadedHeld(base) + DeviceTokens(nums);
    DetachEffect(held, nums);
    LoadedApart(base, nums);
    UnloadUndoesLoad(base);
    Chain(DetachOps(nums) + UnloadOps(base), held, DetachOps(nums), LoadedHeld(base), UnloadOps(base), {});
  }

  /**
   * The private record probe keeps for a bound device: a copy of its platform data, its buffer,
   * and its device number.
   */
  class DevicePrivate {
    const pdata: PlatformData
    const buffer: array<byte>
    const devNum: int

    constructor (pdata: PlatformData, buffer: array<byte>, devNum: int)
      ensures this.pdata == pdata && this.buffer == buffer && this.devNum == devNum
    {
      this.pdata := pdata;
      this.buffer := buffer;
      this.devNum := devNum;
    }
  }

  /** The driver's global state, pcdrv_data, the private record of each bound device, and the kernel it calls. */
  class PlatformDriver {
    var totalDevices: int
    var deviceNumBase: int
    var devicePcd: DeviceRef
    var bound: map<nat, DevicePrivate>   // drvdata of each platform device the driver is bound to, by handle
    const kernel: KernelState

    ghost predicate Valid()
      reads this, kernel
    {
      kernel.Valid() && totalDevices == |bound.Keys|
    }

    constructor (kernel: KernelState)
      requires kernel.Valid()
      ensures Valid() && this.kernel == kernel
      ensures totalDevices == 0 && bound == map[] && devicePcd == NoDevice
    {
      this.kernel := kernel;
      totalDevices := 0;
      deviceNumBase := 0;
      devicePcd := NoDevice;
      bound := map[];
    }

    /** pcd_platform_driver_init, with `f` the first step that fails and `base` the first number alloc_chrdev_region hands out. */
    method Init(base: int, f: LoadFault) returns (ret: int)
      requires Valid() && f.Valid()
      modifies this, kernel
      ensures Valid()
      ensures ret == LoadRet(f)
      ensures kernel.log == old(kernel.log) + LoadOps(base, f)
      ensures deviceNumBase == if f.RegionRefused? then old(deviceNumBase) else base
      ensures bound == old(bound) && totalDevices == old(totalDevices) && devicePcd == old(devicePcd)
    {
      if f.RegionRefused? {
        assert LoadOps(base, f) == [];
        assert kernel.log == old(kernel.log) + LoadOps(base, f);
        return f.err;
      }
      deviceNumBase := base;
      var region := Region(base, MAX_DEVICES);
      kernel.Acquire(region);
      if f.ClassRefused? {
        ret := f.err;
        kernel.Release(region);
        LogTwo(old(kernel.log), Acquire(region), Release(region));
        return;
      }
      kernel.Acquire(Class);
      if f.RegisterRefused? {
        LogTwo(old(kernel.log), Acquire(region), Acquire(Class));
        return 0;
      }
      kernel.Acquire(Driver);
      LogThree(old(kernel.log), Acquire(region), Acquire(Class), Acquire(Driver));
      return 0;
    }

    /** pcd_platform_driver_probe for `pdev`, with `f` the first step that fails. */
    method Probe(pdev: PlatformDevice, f: ProbeFault) returns (ret: int)
      requires Valid() && f.Valid() && pdev.handle !in bound
      modifies this, kernel
      ensures Valid()
      ensures ret == ProbeRet(pdev, f)
      ensures kernel.log == old(kernel.log) + ProbeOps(deviceNumBase, pdev, f)
      ensures deviceNumBase == old(deviceNumBase)
      ensures ret == 0 ==>
        pdev.handle in bound && bound == old(bound)[pdev.handle := bound[pdev.handle]] &&
        totalDevices == old(totalDevices) + 1 && devicePcd == DeviceNode(DevNum(deviceNumBase, pdev))
      ensures ret == 0 ==>
        var rec := bound[pdev.handle];
        fresh(rec) && fresh(rec.buffer) && rec.pdata == pdev.platformData.value &&
        rec.buffer[..] == seq(rec.pdata.size, _ => 0) && rec.devNum == DevNum(deviceNumBase, pdev)
      ensures ret != 0 ==> bound == old(bound) && totalDevices == old(totalDevices)
      ensures devicePcd == if ReachesCdevAdd(pdev, f) && f.DeviceCreateFault? then DeviceError(f.err)
                           else if ret == 0 then DeviceNode(DevNum(deviceNumBase, pdev)) else old(devicePcd)
    {
      if pdev.platformData.None? {
        assert kernel.log == old(kernel.log) + [];
        return -EINVAL;
      }
      if f.PrivAllocFault? {
        assert kernel.log == old(kernel.log) + [];
        return -ENOMEM;
      }
      var pdata := pdev.platformData.value;
      if BufferFails(pdata, f) {
        assert kernel.log == old(kernel.log) + [];
        return -ENOMEM;
      }
      var buffer := new byte[pdata.size](_ => 0);
      var rec := new DevicePrivate(pdata, buffer, deviceNumBase + pdev.id);
      ret := AddCdev(rec.devNum, f);
      if ret == 0 {
        bound := bound[pdev.handle := rec];
        totalDevices := totalDevices + 1;
      }
    }

    /** Steps 5 and 6 of probe for device number `d`: cdev_add, then device_create, deleting the cdev again if that fails. */
    method AddCdev(d: int, f: ProbeFault) returns (ret: int)
      requires kernel.Valid() && f.Valid()
      modifies this`devicePcd, kernel
      ensures kernel.Valid()
      ensures ret == (if f.CdevAddFault? || f.DeviceCreateFault? then f.err else 0)
      ensures kernel.log == old(kernel.log) + CdevOps(d, f)
      ensures devicePcd == if f.DeviceCreateFault? then DeviceError(f.err) else if f.CdevAddFault? then old(devicePcd) else DeviceNode(d)
    {
      if f.CdevAddFault? {
        assert kernel.log == old(kernel.log) + [];
        return f.err;
      }
      kernel.Acquire(Cdev(d));
      if f.DeviceCreateFault? {
        devicePcd := DeviceError(f.err);
        ret := f.err;
        kernel.Release(Cdev(d));
        return;
      }
      kernel.Acquire(DevFile(d));
      devicePcd := DeviceNode(d);
      return 0;
    }

    /** pcd_platform_driver_remove for the bound device `handle`. */
    method Remove(handle: nat) returns (ret: int)
      requires Valid() && handle in bound
      modifies this, kernel
      ensures Valid()
      ensures ret == 0
      ensures kernel.log == old(kernel.log) + RemoveOps(old(bound)[handle].devNum)
      ensures kernel.held == old(kernel.held) - {DevFile(old(bound)[handle].devNum), Cdev(old(bound)[handle].devNum)}
      ensures bound == old(bound) - {handle} && totalDevices == old(totalDevices) - 1
      ensures deviceNumBase == old(deviceNumBase) && devicePcd == old(devicePcd)
    {
      var rec := bound[handle];
      kernel.Release(DevFile(rec.devNum));
      kernel.Release(Cdev(rec.devNum));
      totalDevices := totalDevices - 1;
      bound := bound - {handle};
      assert bound.Keys == old(bound).Keys - {handle};
      return 0;
    }

    /**
     * pcd_platform_driver_cleanup: platform_driver_unregister first removes every bound device,
     * in the order `order`, giving back the numbers `nums`; then the driver, the class and the
     * region go, in that order.
     */
    method Cleanup() returns (ghost order: seq<nat>, ghost nums: seq<int>)
      requires Valid()
      modifies this, kernel
      ensures Valid()
      ensures bound == map[] && totalDevices == 0
      ensures |order| == |old(bound).Keys| && |nums| == |order|
      ensures forall k :: 0 <= k < |order| ==> order[k] in old(bound) && nums[k] == old(bound)[order[k]].devNum
      ensures forall j, k :: 0 <= j < k < |order| ==> order[j] != order[k]
      ensures kernel.log == old(kernel.log) + DetachOps(nums) + UnloadOps(deviceNumBase)
      ensures deviceNumBase == old(deviceNumBase)
      ensures devicePcd == old(devicePcd)
    {
      order, nums := DetachAll();
      kernel.Release(Driver);
      kernel.Release(Class);
      kernel.Release(Region(deviceNumBase, MAX_DEVICES));
    }

    /** The detach step of platform_driver_unregister: remove every bound device, one at a time, in the order `order`. */
    method DetachAll() returns (ghost order: seq<nat>, ghost nums: seq<int>)
      requires Valid()
      modifies this, kernel
      ensures Valid()
      ensures bound == map[] && totalDevices == 0
      ensures |order| == |old(bound).Keys| && |nums| == |order|
      ensures forall k :: 0 <= k < |order| ==> order[k] in old(bound) && nums[k] == old(bound)[order[k]].devNum
      ensures forall j, k :: 0 <= j < k < |order| ==> order[j] != order[k]
      ensures kernel.log == old(kernel.log) + DetachOps(nums)
      ensures deviceNumBase == old(deviceNumBase)
      ensures devicePcd == old(devicePcd)
    {
      order, nums := [], [];
      while bound.Keys != {}
        invariant Valid()
        invariant forall h :: h in bound ==> h in old(bound) && bound[h] == old(bound)[h]
        invariant |order| + |bound.Keys| == |old(bound).Keys| && |nums| == |order|
        invariant forall k :: 0 <= k < |order| ==> order[k] in old(bound) && order[k] !in bound && nums[k] == old(bound)[order[k]].devNum
        invariant forall j, k :: 0 <= j < k < |order| ==> order[j] != order[k]
        invariant kernel.log == old(kernel.log) + DetachOps(nums)
        invariant deviceNumBase == old(deviceNumBase)
        invariant devicePcd == old(devicePcd)
        decreases |bound.Keys|
      {
        var h :| h in bound;
        label Pick:
        var d := bound[h].devNum;
        var _ := Remove(h);
        DetachStep(old(kernel.log), nums, d, kernel.log);
        OrderStep(old(bound), old@Pick(bound), bound, order, nums, h);
        order, nums := order + [h], nums + [d];
      }
    }
  }
}
