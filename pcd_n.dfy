/**
 * The pseudo character driver for NO_OF_DEVICES static devices: the device table, module
 * init with its goto-style rollback, and module cleanup, as kernel calls on the ledger.
 */
module PcdMulti {
  import opened Kernel
  import opened Ledger
  import opened BufferIo

  const NO_OF_DEVICES: nat := 4

  const MEM_SIZE_MAX_PCDEV1: nat := 1024
  const MEM_SIZE_MAX_PCDEV2: nat := 512
  const MEM_SIZE_MAX_PCDEV3: nat := 1024
  const MEM_SIZE_MAX_PCDEV4: nat := 512

  /** The four static device memories, device_buffer_pcdev1 to device_buffer_pcdev4. */
  datatype Memory = Pcdev1Mem | Pcdev2Mem | Pcdev3Mem | Pcdev4Mem

  function MemSize(m: Memory): nat {
    match m
    case Pcdev1Mem => MEM_SIZE_MAX_PCDEV1
    case Pcdev2Mem => MEM_SIZE_MAX_PCDEV2
    case Pcdev3Mem => MEM_SIZE_MAX_PCDEV3
    case Pcdev4Mem => MEM_SIZE_MAX_PCDEV4
  }

  /** One entry of pcdev_data: the memory it serves, its size, serial number and permission word. */
  datatype PcdevRecord = PcdevRecord(buffer: Memory, size: nat, serial: string, perm: int)

  /** The pcdev_data table as written. */
  const PcdevData: seq<PcdevRecord> := [
    PcdevRecord(Pcdev1Mem, MEM_SIZE_MAX_PCDEV1, "PCDEV1XYZ123", 0x1),
    PcdevRecord(Pcdev2Mem, MEM_SIZE_MAX_PCDEV2, "PCDEV2XYZ123", 0x10),
    PcdevRecord(Pcdev2Mem, MEM_SIZE_MAX_PCDEV2, "PCDEV2XYZ123", 0x11),
    PcdevRecord(Pcdev3Mem, MEM_SIZE_MAX_PCDEV3, "PCDEV3XYZ123", 0x11)
  ]

  /** The table with entries [2] and [3] serving the third and fourth memories, as the names suggest. */
  const IntendedPcdevData: seq<PcdevRecord> := [
    PcdevRecord(Pcdev1Mem, MEM_SIZE_MAX_PCDEV1, "PCDEV1XYZ123", 0x1),
    PcdevRecord(Pcdev2Mem, MEM_SIZE_MAX_PCDEV2, "PCDEV2XYZ123", 0x10),
    PcdevRecord(Pcdev3Mem, MEM_SIZE_MAX_PCDEV3, "PCDEV3XYZ123", 0x11),
    PcdevRecord(Pcdev4Mem, MEM_SIZE_MAX_PCDEV4, "PCDEV4XYZ123", 0x11)
  ]

  /** The record for minor `i`, if there is one; every record's size is that of the memory it serves. */
  function Device(i: int): (r: Option<PcdevRecord>)
    ensures r.Some? <==> 0 <= i < NO_OF_DEVICES
    ensures r.Some? ==> r.value.size == MemSize(r.value.buffer) && r.value.size > 0
  {
    if 0 <= i < |PcdevData| then Some(PcdevData[i]) else None
  }

  /** As written, entries [1] and [2] share a memory and a serial number, and the fourth memory serves no entry. */
  lemma EntriesShareMemory()
    ensures PcdevData[1].buffer == PcdevData[2].buffer && PcdevData[1].serial == PcdevData[2].serial
    ensures forall i :: 0 <= i < |PcdevData| ==> PcdevData[i].buffer != Pcdev4Mem
  {
  }

  /** In the intended table every entry has a memory and a serial of its own, of the right size. */
  lemma IntendedEntriesDistinct()
    ensures |IntendedPcdevData| == NO_OF_DEVICES
    ensures forall i, j :: 0 <= i < j < |IntendedPcdevData| ==>
      IntendedPcdevData[i].buffer != IntendedPcdevData[j].buffer && IntendedPcdevData[i].serial != IntendedPcdevData[j].serial
    ensures forall i :: 0 <= i < |IntendedPcdevData| ==> IntendedPcdevData[i].size == MemSize(IntendedPcdevData[i].buffer)
  {
  }

  /** The four static memories, zero-filled as static storage is. */
  class DeviceMemories {
    const pcdev1: array<byte>
    const pcdev2: array<byte>
    const pcdev3: array<byte>
    const pcdev4: array<byte>

    function Of(m: Memory): array<byte> {
      match m
      case Pcdev1Mem => pcdev1
      case Pcdev2Mem => pcdev2
      case Pcdev3Mem => pcdev3
      case Pcdev4Mem => pcdev4
    }

    /** Every memory has the length its size macro declares. */
    predicate Sized() {
      forall m :: Of(m).Length == MemSize(m)
    }

    /** The memory open hands to file I/O for minor `i`: its record's memory, as long as the record's size says. */
    function ForMinor(i: int): (a: array<byte>)
      requires Sized() && Device(i).Some?
      ensures a.Length == Device(i).value.size
    {
      Of(Device(i).value.buffer)
    }

    constructor ()
      ensures Sized()
      ensures forall m :: fresh(Of(m)) && Of(m).Length == MemSize(m)
      ensures forall m :: Of(m)[..] == seq(MemSize(m), _ => 0)
      ensures forall m, n :: m != n ==> Of(m) != Of(n)
    {
      pcdev1 := new byte[MEM_SIZE_MAX_PCDEV1](_ => 0);
      pcdev2 := new byte[MEM_SIZE_MAX_PCDEV2](_ => 0);
      pcdev3 := new byte[MEM_SIZE_MAX_PCDEV3](_ => 0);
      pcdev4 := new byte[MEM_SIZE_MAX_PCDEV4](_ => 0);
    }
  }

  /** As written: bytes written through device 1 are read back through device 2. */
  method SharedMemoryAliasing(data: seq<byte>) returns (seen: seq<byte>)
    requires 0 < |data| <= MEM_SIZE_MAX_PCDEV2
    ensures seen == data
  {
    var mem := new DeviceMemories();
    var dev1 := new OpenFile(mem.ForMinor(1));
    var dev2 := new OpenFile(mem.ForMinor(2));
    WriteThenReadBack(dev1.buffer[..], 0, data);
    var written := dev1.Write(data, false);
    var ret;
    ret, seen := dev2.Read(|data|, false);
    assert data[..|data|] == data;
  }

  /** With the intended table, a write through device 1 leaves device 2's memory as it was. */
  method IntendedMemoriesIsolated(data: seq<byte>) returns (seen: seq<byte>)
    requires 0 < |data| <= MEM_SIZE_MAX_PCDEV2
    ensures seen == seq(|data|, _ => 0)
  {
    var mem := new DeviceMemories();
    var dev1 := new OpenFile(mem.Of(IntendedPcdevData[1].buffer));
    var dev2 := new OpenFile(mem.Of(IntendedPcdevData[2].buffer));
    var written := dev1.Write(data, false);
    var ret;
    ret, seen := dev2.Read(|data|, false);
  }

  /** The first kernel call of module init that fails, with the error it returns. */
  datatype InitFault =
    | NoFault
    | RegionFault(err: int)
    | ClassFault(err: int)
    | CdevAddFault(minor: nat, err: int)
    | DeviceCreateFault(minor: nat, err: int)
  {
    /** Failing kernel calls report a negative errno. */
    predicate Valid() {
      !NoFault? ==> err < 0
    }

    /** The failure happens: a failure at a minor the loop never reaches does not. */
    predicate Fires() {
      match this
      case NoFault => false
      case CdevAddFault(i, _) => i < NO_OF_DEVICES
      case DeviceCreateFault(i, _) => i < NO_OF_DEVICES
      case _ => true
    }
  }

  /** alloc_chrdev_region for NO_OF_DEVICES numbers, then class_create. */
  function Setup(base: int): seq<Op> {
    [Acquire(Region(base, NO_OF_DEVICES)), Acquire(Class)]
  }

  /** Successful iterations `lo` to `hi` - 1 of the init loop: cdev_add, then device_create, for each minor. */
  function AddDevices(base: int, lo: int, hi: int): seq<Op>
    decreases hi - lo
  {
    if hi <= lo then []
    else [Acquire(Cdev(base + lo)), Acquire(DevFile(base + lo))] + AddDevices(base, lo + 1, hi)
  }

  /** The rollback loop from minor `hi` down to minor `lo`: device_destroy, then cdev_del, for each. */
  function Rollback(base: int, hi: int, lo: int): seq<Op>
    decreases hi - lo + 1
  {
    if hi < lo then []
    else [Release(DevFile(base + hi)), Release(Cdev(base + hi))] + Rollback(base, hi - 1, lo)
  }

  /** class_destroy, then unregister_chrdev_region with a count of 1. */
  function Teardown(base: int): seq<Op> {
    [Release(Class), Release(Region(base, 1))]
  }

  /** Setup and the whole init loop, every call successful. */
  function Complete(base: int): seq<Op> {
    Setup(base) + AddDevices(base, 0, NO_OF_DEVICES)
  }

  /**
   * The calls of init that succeed when the loop fails at minor `i`: setup, the iterations
   * before `i`, and minor `i`'s cdev_add if `cdevAdded` (only its device_create failed).
   */
  function Partial(base: int, i: int, cdevAdded: bool): seq<Op> {
    Setup(base) + AddDevices(base, 0, i) + (if cdevAdded then [Acquire(Cdev(base + i))] else [])
  }

  /** As written, a failure at minor `i` rolls back from minor `i` itself, then tears down. */
  function FailedOps(base: int, i: int, cdevAdded: bool): seq<Op> {
    Partial(base, i, cdevAdded) + Rollback(base, i, 0) + Teardown(base)
  }

  /** The kernel calls pcd_driver_init makes, as written, when `f` is its first failing call. */
  function InitOps(base: int, f: InitFault): seq<Op> {
    match f
    case NoFault => Complete(base)
    case RegionFault(_) => []
    case ClassFault(_) => [Acquire(Region(base, NO_OF_DEVICES)), Release(Region(base, 1))]
    case CdevAddFault(i, _) => if i < NO_OF_DEVICES then FailedOps(base, i, false) else Complete(base)
    case DeviceCreateFault(i, _) => if i < NO_OF_DEVICES then FailedOps(base, i, true) else Complete(base)
  }

  /** What pcd_driver_init returns. */
  function InitRet(f: InitFault): int {
    if f.Fires() then f.err else 0
  }

  /** The cleanup loop over minors `lo` to `hi` - 1: device_destroy, then cdev_del, for each. */
  function ReleaseDevices(base: int, lo: int, hi: int): seq<Op>
    decreases hi - lo
  {
    if hi <= lo then []
    else [Release(DevFile(base + lo)), Release(Cdev(base + lo))] + ReleaseDevices(base, lo + 1, hi)
  }

  /** The kernel calls pcd_driver_cleanup makes, as written. */
  function CleanupOps(base: int): seq<Op> {
    ReleaseDevices(base, 0, NO_OF_DEVICES) + Teardown(base)
  }

  /** class_destroy, then unregister_chrdev_region of the NO_OF_DEVICES numbers that were allocated. */
  function FixedTeardown(base: int): seq<Op> {
    [Release(Class), Release(Region(base, NO_OF_DEVICES))]
  }

  /**
   * Corrected failure at minor `i`: a cdev that was added is deleted at once, the rollback
   * starts at minor `i` - 1, and the whole region is given back.
   */
  function FixedFailedOps(base: int, i: int, cdevAdded: bool): seq<Op> {
    Setup(base) + AddDevices(base, 0, i)
    + (if cdevAdded then [Acquire(Cdev(base + i)), Release(Cdev(base + i))] else [])
    + Rollback(base, i - 1, 0) + FixedTeardown(base)
  }

  /** Init with the rollback starting below the failing minor and the whole region given back. */
  function FixedInitOps(base: int, f: InitFault): seq<Op> {
    match f
    case NoFault => Complete(base)
    case RegionFault(_) => []
    case ClassFault(_) => [Acquire(Region(base, NO_OF_DEVICES)), Release(Region(base, NO_OF_DEVICES))]
    case CdevAddFault(i, _) => if i < NO_OF_DEVICES then FixedFailedOps(base, i, false) else Complete(base)
    case DeviceCreateFault(i, _) => if i < NO_OF_DEVICES then FixedFailedOps(base, i, true) else Complete(base)
  }

  /** Cleanup giving back the whole region. */
  function FixedCleanupOps(base: int): seq<Op> {
    ReleaseDevices(base, 0, NO_OF_DEVICES) + FixedTeardown(base)
  }

  /** The calls of init that succeeded before the failure `f`. */
  function Acquired(base: int, f: InitFault): seq<Op> {
    match f
    case NoFault => Complete(base)
    case RegionFault(_) => []
    case ClassFault(_) => [Acquire(Region(base, NO_OF_DEVICES))]
    case CdevAddFault(i, _) => if i < NO_OF_DEVICES then Partial(base, i, false) else Complete(base)
    case DeviceCreateFault(i, _) => if i < NO_OF_DEVICES then Partial(base, i, true) else Complete(base)
  }

  /** The region and the class. */
  function Core(base: int): set<Token> {
    {Region(base, NO_OF_DEVICES), Class}
  }

  /** The cdevs and device files of minors `lo` to `hi` - 1. */
  function Devices(base: int, lo: int, hi: int): set<Token>
    decreases hi - lo
  {
    if hi <= lo then {} else Devices(base, lo, hi - 1) + {Cdev(base + hi - 1), DevFile(base + hi - 1)}
  }

  lemma {:induction false} InDevices(base: int, lo: int, hi: int, t: Token)
    ensures t in Devices(base, lo, hi) <==> (t.Cdev? || t.DevFile?) && base + lo <= t.dev < base + hi
    decreases hi - lo
  {
    if hi > lo {
      InDevices(base, lo, hi - 1, t);
    }
  }

  lemma DevicesSplitLow(base: int, lo: int, hi: int)
    requires lo < hi
    ensures Devices(base, lo, hi) == Devices(base, lo + 1, hi) + {Cdev(base + lo), DevFile(base + lo)}
    ensures Cdev(base + lo) !in Devices(base, lo + 1, hi) && DevFile(base + lo) !in Devices(base, lo + 1, hi)
  {
    forall t ensures t in Devices(base, lo, hi) <==> t in Devices(base, lo + 1, hi) + {Cdev(base + lo), DevFile(base + lo)} {
      InDevices(base, lo, hi, t);
      InDevices(base, lo + 1, hi, t);
    }
    InDevices(base, lo + 1, hi, Cdev(base + lo));
    InDevices(base, lo + 1, hi, DevFile(base + lo));
  }

  /** The core with minors `lo` to `hi` - 1 is the core with minors from `lo` + 1, plus minor `lo`'s two tokens. */
  lemma CoreDevicesSplitLow(base: int, lo: int, hi: int)
    requires lo < hi
    ensures Core(base) + Devices(base, lo, hi) == (Core(base) + Devices(base, lo + 1, hi)) + {Cdev(base + lo), DevFile(base + lo)}
    ensures Cdev(base + lo) !in Core(base) + Devices(base, lo + 1, hi)
    ensures DevFile(base + lo) !in Core(base) + Devices(base, lo + 1, hi)
  {
    DevicesSplitLow(base, lo, hi);
  }

  /** The core with minors `lo` to `hi` - 1 is the core with minors to `hi` - 2, plus minor `hi` - 1's two tokens. */
  lemma CoreDevicesSplitHigh(base: int, lo: int, hi: int)
    requires lo < hi
    ensures Core(base) + Devices(base, lo, hi) == (Core(base) + Devices(base, lo, hi - 1)) + {Cdev(base + hi - 1), DevFile(base + hi - 1)}
    ensures Cdev(base + hi - 1) !in Core(base) + Devices(base, lo, hi - 1)
    ensures DevFile(base + hi - 1) !in Core(base) + Devices(base, lo, hi - 1)
  {
    InDevices(base, lo, hi - 1, Cdev(base + hi - 1));
    InDevices(base, lo, hi - 1, DevFile(base + hi - 1));
  }

  /** With no devices, only the core is held. */
  lemma CoreAlone(base: int)
    ensures Core(base) + Devices(base, 0, 0) == Core(base)
  {
  }

  /** Nothing the drivers hold is built on a device file. */
  lemma NothingBuiltOnDevFile(held: set<Token>, d: int)
    ensures forall u :: u in held ==> !BuiltOn(u, DevFile(d))
  {
  }

  /** With the region and the class held, minor `x`'s cdev and then its device file can be acquired. */
  lemma AcquireDevice(rest: set<Token>, base: int, x: int)
    requires Region(base, NO_OF_DEVICES) in rest && Class in rest && base <= x < base + NO_OF_DEVICES
    requires Cdev(x) !in rest && DevFile(x) !in rest
    ensures Disciplined(rest, [Acquire(Cdev(x)), Acquire(DevFile(x))])
    ensures Replay(rest, [Acquire(Cdev(x)), Acquire(DevFile(x))]) == rest + {Cdev(x), DevFile(x)}
  {
    var region := Region(base, NO_OF_DEVICES);
    assert Covers(region, x);
    assert region in rest + {Cdev(x)};
    assert Legal(rest, Acquire(Cdev(x)));
    assert Legal(rest + {Cdev(x)}, Acquire(DevFile(x)));
    DisciplinedTwo(rest, Acquire(Cdev(x)), Acquire(DevFile(x)));
  }

  /** Minor `x`'s device file, then its cdev, can be released, leaving the rest. */
  lemma ReleaseDevice(rest: set<Token>, x: int)
    requires Cdev(x) !in rest && DevFile(x) !in rest
    ensures Disciplined(rest + {Cdev(x), DevFile(x)}, [Release(DevFile(x)), Release(Cdev(x))])
    ensures Replay(rest + {Cdev(x), DevFile(x)}, [Release(DevFile(x)), Release(Cdev(x))]) == rest
  {
    var h := rest + {Cdev(x), DevFile(x)};
    NothingBuiltOnDevFile(h, x);
    assert Legal(h, Release(DevFile(x)));
    assert h - {DevFile(x)} == rest + {Cdev(x)};
    forall u | u in rest + {Cdev(x)} ensures !BuiltOn(u, Cdev(x)) {
    }
    assert Legal(h - {DevFile(x)}, Release(Cdev(x)));
    assert rest + {Cdev(x)} - {Cdev(x)} == rest;
    DisciplinedTwo(h, Release(DevFile(x)), Release(Cdev(x)));
  }

  /** Releasing minor `x` when its device file is missing: the first call is unsound, and the cdev, if held, is dropped. */
  lemma ReleaseMissingDevice(rest: set<Token>, x: int, withCdev: bool)
    requires Cdev(x) !in rest && DevFile(x) !in rest
    ensures var h := if withCdev then rest + {Cdev(x)} else rest;
      !Legal(h, Release(DevFile(x))) && Replay(h, [Release(DevFile(x)), Release(Cdev(x))]) == rest
  {
    var h := if withCdev then rest + {Cdev(x)} else rest;
    DisciplinedTwo(h, Release(DevFile(x)), Release(Cdev(x)));
    assert h - {DevFile(x)} - {Cdev(x)} == rest;
  }

  /** A cdev_add undone at once by cdev_del is sound and changes nothing. */
  lemma AddThenDeleteCdev(held: set<Token>, base: int, x: int)
    requires Region(base, NO_OF_DEVICES) in held && base <= x < base + NO_OF_DEVICES
    requires Cdev(x) !in held && DevFile(x) !in held
    ensures Disciplined(held, [Acquire(Cdev(x)), Release(Cdev(x))])
    ensures Replay(held, [Acquire(Cdev(x)), Release(Cdev(x))]) == held
  {
    assert Covers(Region(base, NO_OF_DEVICES), x);
    assert Legal(held, Acquire(Cdev(x)));
    forall u | u in held + {Cdev(x)} ensures !BuiltOn(u, Cdev(x)) {
    }
    assert held + {Cdev(x)} - {Cdev(x)} == held;
    DisciplinedTwo(held, Acquire(Cdev(x)), Release(Cdev(x)));
  }

  /** alloc_chrdev_region then class_create, from nothing held, are sound and hold the core. */
  lemma SetupEffect(base: int)
    ensures Disciplined({}, Setup(base)) && Replay({}, Setup(base)) == Core(base)
  {
    var region := Region(base, NO_OF_DEVICES);
    assert Legal({}, Acquire(region));
    assert Legal({region}, Acquire(Class));
    DisciplinedTwo({}, Acquire(region), Acquire(Class));
    assert {region} + {Class} == Core(base);
  }

  /** The init loop's iteration over minor `hi` comes after those before it. */
  lemma {:induction false} AddDevicesSnoc(base: int, lo: int, hi: int)
    requires lo <= hi
    ensures AddDevices(base, lo, hi + 1) == AddDevices(base, lo, hi) + [Acquire(Cdev(base + hi)), Acquire(DevFile(base + hi))]
    decreases hi - lo
  {
    if lo < hi {
      AddDevicesSnoc(base, lo + 1, hi);
    }
  }

  /** The cleanup loop's iteration over minor `hi` comes after those before it. */
  lemma {:induction false} ReleaseDevicesSnoc(base: int, lo: int, hi: int)
    requires lo <= hi
    ensures ReleaseDevices(base, lo, hi + 1) == ReleaseDevices(base, lo, hi) + [Release(DevFile(base + hi)), Release(Cdev(base + hi))]
    decreases hi - lo
  {
    if lo < hi {
      ReleaseDevicesSnoc(base, lo + 1, hi);
    }
  }

  /** The rollback loop's iteration over minor `lo` comes after those above it. */
  lemma {:induction false} RollbackSnoc(base: int, hi: int, lo: int)
    requires lo <= hi
    ensures Rollback(base, hi, lo) == Rollback(base, hi, lo + 1) + [Release(DevFile(base + lo)), Release(Cdev(base + lo))]
    decreases hi - lo
  {
    if lo < hi {
      RollbackSnoc(base, hi - 1, lo);
    }
  }

  /** The successful iterations `lo` to `hi` - 1 of the init loop acquire each minor's cdev, then its device file, soundly. */
  lemma {:induction false} AddDevicesEffect(base: int, lo: nat, hi: nat)
    requires lo <= hi <= NO_OF_DEVICES
    ensures Disciplined(Core(base) + Devices(base, 0, lo), AddDevices(base, lo, hi))
    ensures Replay(Core(base) + Devices(base, 0, lo), AddDevices(base, lo, hi)) == Core(base) + Devices(base, 0, hi)
    decreases hi - lo
  {
    if lo < hi {
      var rest := Core(base) + Devices(base, 0, lo);
      var x := base + lo;
      CoreDevicesSplitHigh(base, 0, lo + 1);
      AcquireDevice(rest, base, x);
      AddDevicesEffect(base, lo + 1, hi);
      DisciplinedAppend(rest, [Acquire(Cdev(x)), Acquire(DevFile(x))], AddDevices(base, lo + 1, hi));
      ReplayAppend(rest, [Acquire(Cdev(x)), Acquire(DevFile(x))], AddDevices(base, lo + 1, hi));
    }
  }

  /** Setup and the first `i` iterations of the init loop are sound and hold the core and minors 0 to `i` - 1. */
  lemma LoopEffect(base: int, i: nat)
    requires i <= NO_OF_DEVICES
    ensures Disciplined({}, Setup(base) + AddDevices(base, 0, i))
    ensures Replay({}, Setup(base) + AddDevices(base, 0, i)) == Core(base) + Devices(base, 0, i)
  {
    SetupEffect(base);
    CoreAlone(base);
    AddDevicesEffect(base, 0, i);
    DisciplinedAppend({}, Setup(base), AddDevices(base, 0, i));
    ReplayAppend({}, Setup(base), AddDevices(base, 0, i));
  }

  /** Rolling back minors `hi` down to `lo` from a state holding minors 0 to `hi` is sound and leaves minors below `lo`. */
  lemma {:induction false} RollbackEffect(base: int, hi: int, lo: nat)
    requires hi < NO_OF_DEVICES && lo <= hi + 1
    ensures Disciplined(Core(base) + Devices(base, 0, hi + 1), Rollback(base, hi, lo))
    ensures Replay(Core(base) + Devices(base, 0, hi + 1), Rollback(base, hi, lo)) == Core(base) + Devices(base, 0, lo)
    decreases hi - lo + 1
  {
    if lo <= hi {
      var rest := Core(base) + Devices(base, 0, hi);
      var x := base + hi;
      CoreDevicesSplitHigh(base, 0, hi + 1);
      ReleaseDevice(rest, x);
      RollbackEffect(base, hi - 1, lo);
      DisciplinedAppend(rest + {Cdev(x), DevFile(x)}, [Release(DevFile(x)), Release(Cdev(x))], Rollback(base, hi - 1, lo));
      ReplayAppend(rest + {Cdev(x), DevFile(x)}, [Release(DevFile(x)), Release(Cdev(x))], Rollback(base, hi - 1, lo));
    }
  }

  /** The cleanup loop over minors `lo` to NO_OF_DEVICES - 1 is sound and leaves the core. */
  lemma {:induction false} ReleaseDevicesEffect(base: int, lo: nat)
    requires lo <= NO_OF_DEVICES
    ensures Disciplined(Core(base) + Devices(base, lo, NO_OF_DEVICES), ReleaseDevices(base, lo, NO_OF_DEVICES))
    ensures Replay(Core(base) + Devices(base, lo, NO_OF_DEVICES), ReleaseDevices(base, lo, NO_OF_DEVICES)) == Core(base)
    decreases NO_OF_DEVICES - lo
  {
    if lo < NO_OF_DEVICES {
      var rest := Core(base) + Devices(base, lo + 1, NO_OF_DEVICES);
      var x := base + lo;
      CoreDevicesSplitLow(base, lo, NO_OF_DEVICES);
      ReleaseDevice(rest, x);
      ReleaseDevicesEffect(base, lo + 1);
      DisciplinedAppend(rest + {Cdev(x), DevFile(x)}, [Release(DevFile(x)), Release(Cdev(x))], ReleaseDevices(base, lo + 1, NO_OF_DEVICES));
      ReplayAppend(rest + {Cdev(x), DevFile(x)}, [Release(DevFile(x)), Release(Cdev(x))], ReleaseDevices(base, lo + 1, NO_OF_DEVICES));
    }
  }

  /** As written, the teardown drops the class but asks for a one-number region that was never allocated. */
  lemma TeardownEffect(base: int)
    ensures Replay(Core(base), Teardown(base)) == {Region(base, NO_OF_DEVICES)}
    ensures !Disciplined(Core(base), Teardown(base))
  {
    DisciplinedTwo(Core(base), Release(Class), Release(Region(base, 1)));
    assert Core(base) - {Class} == {Region(base, NO_OF_DEVICES)};
  }

  /** The corrected teardown drops the class, then the region, soundly, leaving nothing. */
  lemma FixedTeardownEffect(base: int)
    ensures Disciplined(Core(base), FixedTeardown(base)) && Replay(Core(base), FixedTeardown(base)) == {}
  {
    var region := Region(base, NO_OF_DEVICES);
    assert Legal(Core(base), Release(Class));
    assert Core(base) - {Class} == {region};
    assert Legal({region}, Release(region));
    DisciplinedTwo(Core(base), Release(Class), Release(region));
  }

  /** Init that meets no failure returns 0 holding the region, the class and every cdev and device file, acquired soundly. */
  lemma InitSucceeds(base: int, f: InitFault)
    requires !f.Fires()
    ensures InitRet(f) == 0
    ensures Disciplined({}, InitOps(base, f))
    ensures Replay({}, InitOps(base, f)) == Core(base) + Devices(base, 0, NO_OF_DEVICES)
  {
    LoopEffect(base, NO_OF_DEVICES);
  }

  /** Init returns 0 exactly when no kernel call failed, and otherwise the failing call's error. */
  lemma InitReturnsError(f: InitFault)
    requires f.Valid()
    ensures InitRet(f) == 0 <==> !f.Fires()
    ensures f.Fires() ==> InitRet(f) == f.err && InitRet(f) < 0
  {
  }

  /** What init holds when the loop fails at minor `i`: the core, minors below `i`, and minor `i`'s cdev if it was added. */
  lemma PartialEffect(base: int, i: nat, cdevAdded: bool)
    requires i < NO_OF_DEVICES
    ensures var rest := Core(base) + Devices(base, 0, i);
      Cdev(base + i) !in rest && DevFile(base + i) !in rest
      && Replay({}, Partial(base, i, cdevAdded)) == (if cdevAdded then rest + {Cdev(base + i)} else rest)
  {
    var loop := Setup(base) + AddDevices(base, 0, i);
    LoopEffect(base, i);
    CoreDevicesSplitHigh(base, 0, i + 1);
    if cdevAdded {
      ReplayAppend({}, loop, [Acquire(Cdev(base + i))]);
      ReplayOne(Core(base) + Devices(base, 0, i), Acquire(Cdev(base + i)));
    } else {
      assert Partial(base, i, cdevAdded) == loop;
    }
  }

  /** As written, the rollback after a failure at minor `i` begins with minor `i`, whose device file (and, after a failed cdev_add, cdev) was never created. */
  lemma RollbackStartsAtFailedMinor(base: int, i: nat, cdevAdded: bool)
    requires i < NO_OF_DEVICES
    ensures var pre := Partial(base, i, cdevAdded);
      var ops := FailedOps(base, i, cdevAdded);
      |ops| > |pre| + 1
      && ops[|pre|] == Release(DevFile(base + i)) && DevFile(base + i) !in Replay({}, pre)
      && ops[|pre| + 1] == Release(Cdev(base + i)) && (!cdevAdded ==> Cdev(base + i) !in Replay({}, pre))
  {
    var pre := Partial(base, i, cdevAdded);
    var rest := Rollback(base, i - 1, 0) + Teardown(base);
    assert FailedOps(base, i, cdevAdded) == pre + ([Release(DevFile(base + i)), Release(Cdev(base + i))] + rest);
    PartialEffect(base, i, cdevAdded);
  }

  /** As written, a failure at minor `i` leaves the whole region allocated, and the calls that get there are unsound. */
  lemma FailedOpsLeakRegion(base: int, i: nat, cdevAdded: bool)
    requires i < NO_OF_DEVICES
    ensures Replay({}, FailedOps(base, i, cdevAdded)) == {Region(base, NO_OF_DEVICES)}
    ensures !Disciplined({}, FailedOps(base, i, cdevAdded))
  {
    var pre := Partial(base, i, cdevAdded);
    var x := base + i;
    var pair := [Release(DevFile(x)), Release(Cdev(x))];
    var below := Rollback(base, i - 1, 0);
    assert FailedOps(base, i, cdevAdded) == pre + (pair + (below + Teardown(base)));
    PartialEffect(base, i, cdevAdded);
    var rest := Core(base) + Devices(base, 0, i);
    ReleaseMissingDevice(rest, x, cdevAdded);
    RollbackEffect(base, i - 1, 0);
    CoreAlone(base);
    TeardownEffect(base);
    ReplayAppend(rest, below, Teardown(base));
    ReplayAppend(Replay({}, pre), pair, below + Teardown(base));
    ReplayAppend({}, pre, pair + (below + Teardown(base)));
    DisciplinedAppend({}, pre, pair + (below + Teardown(base)));
  }

  /** As written, every failure after the region is allocated leaves the whole region allocated, unsoundly released. */
  lemma InitFailureLeaksRegion(base: int, f: InitFault)
    requires f.Fires() && !f.RegionFault?
    ensures Replay({}, InitOps(base, f)) == {Region(base, NO_OF_DEVICES)}
    ensures !Disciplined({}, InitOps(base, f))
  {
    if f.ClassFault? {
      DisciplinedTwo({}, Acquire(Region(base, NO_OF_DEVICES)), Release(Region(base, 1)));
    } else {
      FailedOpsLeakRegion(base, f.minor, f.DeviceCreateFault?);
    }
  }

  /** A failure in the device loop makes init's calls those of a failure at that minor. */
  lemma InitOpsOnDeviceFailure(base: int, f: InitFault)
    requires f.Fires() && (f.CdevAddFault? || f.DeviceCreateFault?)
    ensures InitOps(base, f) == FailedOps(base, f.minor, f.DeviceCreateFault?)
  {
  }

  /** As written, cleanup after a successful init gives back every device and the class but not the region. */
  lemma CleanupLeaksRegion(base: int)
    ensures Replay(Core(base) + Devices(base, 0, NO_OF_DEVICES), CleanupOps(base)) == {Region(base, NO_OF_DEVICES)}
    ensures !Disciplined(Core(base) + Devices(base, 0, NO_OF_DEVICES), CleanupOps(base))
  {
    var h0 := Core(base) + Devices(base, 0, NO_OF_DEVICES);
    ReleaseDevicesEffect(base, 0);
    TeardownEffect(base);
    ReplayAppend(h0, ReleaseDevices(base, 0, NO_OF_DEVICES), Teardown(base));
    DisciplinedAppend(h0, ReleaseDevices(base, 0, NO_OF_DEVICES), Teardown(base));
  }

  /** The rollback of init-loop iterations `lo` to `hi` - 1 is their undo: last acquired, first released. */
  lemma {:induction false} UndoAddDevices(base: int, lo: int, hi: int)
    requires lo <= hi
    ensures Undo(AddDevices(base, lo, hi)) == Rollback(base, hi - 1, lo)
    decreases hi - lo
  {
    if lo < hi {
      var x := base + lo;
      UndoAddDevices(base, lo + 1, hi);
      UndoAppend([Acquire(Cdev(x)), Acquire(DevFile(x))], AddDevices(base, lo + 1, hi));
      assert Undo([Acquire(Cdev(x)), Acquire(DevFile(x))]) == [Release(DevFile(x)), Release(Cdev(x))];
      RollbackSnoc(base, hi - 1, lo);
    }
  }

  /** The corrected calls after a failure at minor `i` are the undo of what was acquired. */
  lemma FixedFailedIsUndo(base: int, i: nat, cdevAdded: bool)
    ensures FixedFailedOps(base, i, cdevAdded) == Partial(base, i, cdevAdded) + Undo(Partial(base, i, cdevAdded))
  {
    LoopUndo(base, i);
    if cdevAdded {
      UndoAfterCdev(Setup(base) + AddDevices(base, 0, i), Cdev(base + i), Rollback(base, i - 1, 0), FixedTeardown(base));
    } else {
      assert Partial(base, i, cdevAdded) == Setup(base) + AddDevices(base, 0, i);
    }
  }

  /** Undoing the setup and the first `i` minors is the corrected rollback and teardown. */
  lemma LoopUndo(base: int, i: nat)
    ensures Undo(Setup(base) + AddDevices(base, 0, i)) == Rollback(base, i - 1, 0) + FixedTeardown(base)
  {
    UndoAddDevices(base, 0, i);
    UndoAppend(Setup(base), AddDevices(base, 0, i));
    assert Undo(Setup(base)) == FixedTeardown(base);
  }

  /** A cdev added after `loop` is undone first, ahead of the undo of `loop`. */
  lemma UndoAfterCdev(loop: seq<Op>, c: Token, rollback: seq<Op>, teardown: seq<Op>)
    requires Undo(loop) == rollback + teardown
    ensures loop + [Acquire(c), Release(c)] + rollback + teardown == loop + [Acquire(c)] + Undo(loop + [Acquire(c)])
  {
    UndoAppend(loop, [Acquire(c)]);
    assert Undo([Acquire(c)]) == [Release(c)];
    assert loop + [Acquire(c), Release(c)] + rollback + teardown == loop + [Acquire(c)] + ([Release(c)] + (rollback + teardown));
  }

  lemma Regroup(a: seq<Op>, b: seq<Op>, c: seq<Op>, d: seq<Op>)
    ensures a + b + c + d == a + (b + (c + d))
  {
  }

  /** From minors 0 to `i` - 1 and the core, the corrected rollback and teardown are sound and leave nothing. */
  lemma FixedUnwindSound(base: int, i: nat)
    requires i <= NO_OF_DEVICES
    ensures Disciplined(Core(base) + Devices(base, 0, i), Rollback(base, i - 1, 0) + FixedTeardown(base))
    ensures Replay(Core(base) + Devices(base, 0, i), Rollback(base, i - 1, 0) + FixedTeardown(base)) == {}
  {
    var h := Core(base) + Devices(base, 0, i);
    RollbackEffect(base, i - 1, 0);
    CoreAlone(base);
    FixedTeardownEffect(base);
    ReplayAppend(h, Rollback(base, i - 1, 0), FixedTeardown(base));
    DisciplinedAppend(h, Rollback(base, i - 1, 0), FixedTeardown(base));
  }

  /** The corrected calls after a failure at minor `i` are sound and leave nothing held. */
  lemma FixedFailedSound(base: int, i: nat, cdevAdded: bool)
    requires i < NO_OF_DEVICES
    ensures Disciplined({}, FixedFailedOps(base, i, cdevAdded))
    ensures Replay({}, FixedFailedOps(base, i, cdevAdded)) == {}
  {
    var loop := Setup(base) + AddDevices(base, 0, i);
    var tail := Rollback(base, i - 1, 0) + FixedTeardown(base);
    var h := Core(base) + Devices(base, 0, i);
    LoopEffect(base, i);
    FixedUnwindSound(base, i);
    if cdevAdded {
      var c := Cdev(base + i);
      var undoCdev := [Acquire(c), Release(c)];
      Regroup(loop, undoCdev, Rollback(base, i - 1, 0), FixedTeardown(base));
      CoreDevicesSplitHigh(base, 0, i + 1);
      AddThenDeleteCdev(h, base, base + i);
      Chain(undoCdev + tail, h, undoCdev, h, tail, {});
      Chain(FixedFailedOps(base, i, true), {}, loop, h, undoCdev + tail, {});
    } else {
      assert FixedFailedOps(base, i, false) == loop + [] + Rollback(base, i - 1, 0) + FixedTeardown(base);
      Regroup(loop, [], Rollback(base, i - 1, 0), FixedTeardown(base));
      Chain(FixedFailedOps(base, i, false), {}, loop, h, tail, {});
    }
  }

  /** Corrected init: a failure gives back exactly what was acquired, in reverse order, soundly, leaving nothing held. */
  lemma FixedInitUndoesFailure(base: int, f: InitFault)
    requires f.Fires()
    ensures FixedInitOps(base, f) == Acquired(base, f) + Undo(Acquired(base, f))
    ensures Disciplined({}, FixedInitOps(base, f))
    ensures Replay({}, FixedInitOps(base, f)) == {}
  {
    var region := Region(base, NO_OF_DEVICES);
    if f.ClassFault? {
      assert Undo([Acquire(region)]) == [Release(region)];
      DisciplinedTwo({}, Acquire(region), Release(region));
    } else if f.CdevAddFault? || f.DeviceCreateFault? {
      FixedFailedIsUndo(base, f.minor, f.DeviceCreateFault?);
      FixedFailedSound(base, f.minor, f.DeviceCreateFault?);
    }
  }

  /** Corrected init behaves as written when nothing fails. */
  lemma FixedInitKeepsSuccess(base: int, f: InitFault)
    requires !f.Fires()
    ensures FixedInitOps(base, f) == InitOps(base, f) == Setup(base) + AddDevices(base, 0, NO_OF_DEVICES)
  {
  }

  /** Corrected cleanup after a successful init gives back everything, soundly. */
  lemma FixedCleanupReleasesAll(base: int)
    ensures Disciplined(Core(base) + Devices(base, 0, NO_OF_DEVICES), FixedCleanupOps(base))
    ensures Replay(Core(base) + Devices(base, 0, NO_OF_DEVICES), FixedCleanupOps(base)) == {}
  {
    var h0 := Core(base) + Devices(base, 0, NO_OF_DEVICES);
    ReleaseDevicesEffect(base, 0);
    FixedTeardownEffect(base);
    ReplayAppend(h0, ReleaseDevices(base, 0, NO_OF_DEVICES), FixedTeardown(base));
    DisciplinedAppend(h0, ReleaseDevices(base, 0, NO_OF_DEVICES), FixedTeardown(base));
  }

  /** When no device call fails, init makes every call of Complete and returns 0. */
  lemma InitOpsOnSuccess(base: int, f: InitFault)
    requires !f.Fires()
    ensures InitOps(base, f) == Complete(base) && InitRet(f) == 0
  {
  }

  /** The log of an init whose class_create fails, call by call. */
  lemma ClassFaultLog(log: seq<Op>, base: int, f: InitFault)
    requires f.ClassFault?
    ensures log + [Acquire(Region(base, NO_OF_DEVICES))] + [Release(Region(base, 1))] == log + InitOps(base, f)
  {
  }

  /** The log of a successful init, call by call, is the log extended by Complete. */
  lemma SuccessLog(log: seq<Op>, base: int)
    ensures log + [Acquire(Region(base, NO_OF_DEVICES))] + [Acquire(Class)] + AddDevices(base, 0, NO_OF_DEVICES)
      == log + Complete(base)
  {
  }

  /** The log of an init that fails at minor `i`, call by call, is the log extended by FailedOps. */
  lemma FailureLog(log: seq<Op>, base: int, i: int, cdevAdded: bool)
    ensures log + [Acquire(Region(base, NO_OF_DEVICES))] + [Acquire(Class)] + AddDevices(base, 0, i)
      + (if cdevAdded then [Acquire(Cdev(base + i))] else []) + Rollback(base, i, 0)
      + [Release(Class)] + [Release(Region(base, 1))]
      == log + FailedOps(base, i, cdevAdded)
  {
  }

  /** The log of an init that gets past class_create, call by call, whether its device loop stops at minor `i` or completes. */
  lemma DeviceLoopLog(log0: seq<Op>, base: int, f: InitFault, i: int, log: seq<Op>)
    requires !f.RegionFault? && !f.ClassFault?
    requires 0 <= i <= NO_OF_DEVICES && (i < NO_OF_DEVICES <==> f.Fires())
    requires i == NO_OF_DEVICES ==>
      log == log0 + [Acquire(Region(base, NO_OF_DEVICES))] + [Acquire(Class)] + AddDevices(base, 0, i)
    requires i < NO_OF_DEVICES ==> (f.minor == i &&
      log == log0 + [Acquire(Region(base, NO_OF_DEVICES))] + [Acquire(Class)] + AddDevices(base, 0, i)
        + (if f.DeviceCreateFault? then [Acquire(Cdev(base + i))] else []) + Rollback(base, i, 0)
        + [Release(Class)] + [Release(Region(base, 1))])
    ensures log == log0 + InitOps(base, f)
  {
    if i == NO_OF_DEVICES {
      SuccessLog(log0, base);
      InitOpsOnSuccess(base, f);
    } else {
      FailureLog(log0, base, i, f.DeviceCreateFault?);
      InitOpsOnDeviceFailure(base, f);
    }
  }

  /** The log of cleanup, call by call, is the log extended by CleanupOps. */
  lemma CleanupLog(log: seq<Op>, base: int)
    ensures log + ReleaseDevices(base, 0, NO_OF_DEVICES) + [Release(Class)] + [Release(Region(base, 1))]
      == log + CleanupOps(base)
  {
  }

  /** The driver's global state, pcdrv_data, with the kernel it calls. */
  class PcdDriver {
    var totalDevices: int
    var deviceNumber: int
    const kernel: KernelState

    ghost predicate Valid()
      reads this, kernel
    {
      kernel.Valid() && totalDevices == NO_OF_DEVICES
    }

    constructor (kernel: KernelState)
      requires kernel.Valid()
      ensures Valid() && this.kernel == kernel
    {
      this.kernel := kernel;
      totalDevices := NO_OF_DEVICES;
      deviceNumber := 0;
    }

    /** pcd_driver_init, with `f` the first kernel call that fails and `base` the number alloc_chrdev_region hands out. */
    method Init(base: int, f: InitFault) returns (ret: int)
      requires Valid() && f.Valid()
      modifies this, kernel
      ensures Valid()
      ensures ret == InitRet(f)
      ensures kernel.log == old(kernel.log) + InitOps(base, f)
      ensures deviceNumber == if f.RegionFault? then old(deviceNumber) else base
    {
      if f.RegionFault? {
        assert kernel.log == old(kernel.log) + InitOps(base, f);
        return f.err;
      }
      deviceNumber := base;
      kernel.Acquire(Region(deviceNumber, NO_OF_DEVICES));
      if f.ClassFault? {
        ret := f.err;
        kernel.Release(Region(deviceNumber, 1));
        ClassFaultLog(old(kernel.log), base, f);
        return;
      }
      kernel.Acquire(Class);
      var i := AddAll(f);
      if i < NO_OF_DEVICES {
        ret := f.err;
        Unwind(i);
      } else {
        ret := 0;
      }
      DeviceLoopLog(old(kernel.log), base, f, i, kernel.log);
    }

    /**
     * The device loop of pcd_driver_init: cdev_add then device_create for each minor, stopping at
     * the first failure. It returns the minor it stopped at, NO_OF_DEVICES when none failed.
     */
    method AddAll(f: InitFault) returns (i: int)
      requires kernel.Valid()
      modifies kernel
      ensures kernel.Valid()
      ensures 0 <= i <= NO_OF_DEVICES
      ensures i < NO_OF_DEVICES <==> f.Fires() && (f.CdevAddFault? || f.DeviceCreateFault?)
      ensures i == NO_OF_DEVICES ==> kernel.log == old(kernel.log) + AddDevices(deviceNumber, 0, i)
      ensures i < NO_OF_DEVICES ==>
        f.minor == i && kernel.log == old(kernel.log) + AddDevices(deviceNumber, 0, i)
          + (if f.DeviceCreateFault? then [Acquire(Cdev(deviceNumber + i))] else [])
    {
      i := 0;
      while i < NO_OF_DEVICES
        invariant 0 <= i <= NO_OF_DEVICES && kernel.Valid()
        invariant kernel.log == old(kernel.log) + AddDevices(deviceNumber, 0, i)
        invariant (f.CdevAddFault? || f.DeviceCreateFault?) ==> f.minor >= i
      {
        if f.CdevAddFault? && f.minor == i {
          return;
        }
        kernel.Acquire(Cdev(deviceNumber + i));
        if f.DeviceCreateFault? && f.minor == i {
          return;
        }
        kernel.Acquire(DevFile(deviceNumber + i));
        AddDevicesSnoc(deviceNumber, 0, i);
        i := i + 1;
      }
    }

    /**
     * The cdev_del, class_del and unreg_chrdev labels of pcd_driver_init: device_destroy then
     * cdev_del from minor `top` down to 0, then class_destroy and unregister_chrdev_region.
     */
    method Unwind(top: int)
      requires kernel.Valid()
      modifies kernel
      ensures kernel.Valid()
      ensures kernel.log == old(kernel.log) + Rollback(deviceNumber, top, 0) + [Release(Class)] + [Release(Region(deviceNumber, 1))]
    {
      var i := top;
      while i >= 0
        invariant -1 <= i <= top || (i == top < -1)
        invariant kernel.Valid()
        invariant kernel.log == old(kernel.log) + Rollback(deviceNumber, top, i + 1)
        decreases i + 1
      {
        kernel.Release(DevFile(deviceNumber + i));
        kernel.Release(Cdev(deviceNumber + i));
        RollbackSnoc(deviceNumber, top, i);
        i := i - 1;
      }
      kernel.Release(Class);
      kernel.Release(Region(deviceNumber, 1));
    }

    /** pcd_driver_cleanup. */
    method Cleanup()
      requires Valid()
      modifies kernel
      ensures Valid()
      ensures kernel.log == old(kernel.log) + CleanupOps(deviceNumber)
    {
      var i := 0;
      while i < NO_OF_DEVICES
        invariant 0 <= i <= NO_OF_DEVICES && kernel.Valid()
        invariant kernel.log == old(kernel.log) + ReleaseDevices(deviceNumber, 0, i)
      {
        kernel.Release(DevFile(deviceNumber + i));
        kernel.Release(Cdev(deviceNumber + i));
        ReleaseDevicesSnoc(deviceNumber, 0, i);
        i := i + 1;
      }
      kernel.Release(Class);
      kernel.Release(Region(deviceNumber, 1));
      CleanupLog(old(kernel.log), deviceNumber);
    }
  }
}
