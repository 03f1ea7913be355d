/**
 * The file operations as they are compiled (the buffer logic of the multi-device driver sits
 * under `#if 0`, and the platform drivers carry the same stubs), and the first platform
 * driver's probe and remove, which only check for platform data.
 */
module PcdStubs {
  import opened Kernel
  import opened BufferIo
  import PcdPlatform

  /** The compiled llseek: position 0, whatever is asked, and the file position is left alone. */
  function Lseek(pos: int, offset: int, whence: int): (r: int)
    ensures r == 0
  {
    0
  }

  /** The compiled read: 0 bytes, end of file, whatever is asked. */
  function Read(pos: int, count: nat): (r: int)
    ensures r == 0
  {
    0
  }

  /** The compiled write: no space left, whatever is offered. */
  function Write(pos: int, count: nat): (r: int)
    ensures r == -ENOMEM
  {
    -ENOMEM
  }

  /** The compiled open and release succeed and record nothing. */
  function Open(): (r: int)
    ensures r == 0
  {
    0
  }

  function Release(): (r: int)
    ensures r == 0
  {
    0
  }

  /**
   * The stubs answer as the buffer logic answers for a device with no bytes at all: every read
   * finds end of file, every write finds no space, and every seek that succeeds lands on 0.
   */
  lemma StubsAreAnEmptyDevice(pos: int, offset: int, whence: int, count: nat, data: seq<byte>, fault: bool)
    ensures ReadFrom([], 0, count, fault) == Done([]) && Read(pos, count) == |ReadFrom([], 0, count, fault).value|
    ensures WriteAt([], 0, data, fault) == Fail(ENOMEM) && Write(pos, |data|) == -WriteAt([], 0, data, fault).errno
    ensures Seek(0, 0, offset, whence).Done? ==> Lseek(pos, offset, whence) == SeekReturn(Seek(0, 0, offset, whence))
  {
  }

  /** pcd_platform_driver_probe of the first platform driver: -EINVAL through its error label when there is no platform data, else 0. */
  function Probe(pdev: PcdPlatform.PlatformDevice): (r: int)
    ensures r == 0 <==> pdev.platformData.Some?
    ensures r != 0 ==> r == -EINVAL
  {
    if pdev.platformData.None? then -EINVAL else 0
  }

  /** pcd_platform_driver_remove of the first platform driver: 0, and nothing is given back. */
  function Remove(pdev: PcdPlatform.PlatformDevice): (r: int)
    ensures r == 0
  {
    0
  }

  /**
   * The first driver's probe is the platform-data check of the full one: it refuses exactly the
   * devices the full probe refuses before allocating anything, with the same error, and it
   * accepts every device the full probe accepts.
   */
  lemma ProbeIsFirstStepOfFullProbe(pdev: PcdPlatform.PlatformDevice, f: PcdPlatform.ProbeFault, base: int)
    requires f.Valid()
    ensures pdev.platformData.None? ==>
      Probe(pdev) == PcdPlatform.ProbeRet(pdev, f) && PcdPlatform.ProbeOps(base, pdev, f) == []
    ensures PcdPlatform.ProbeRet(pdev, f) == 0 ==> Probe(pdev) == 0
    ensures Probe(pdev) == 0 && f.NoProbeFault? && pdev.platformData.value.size >= 0 ==> PcdPlatform.ProbeRet(pdev, f) == 0
  {
    PcdPlatform.ProbeReturns(base, pdev, f);
  }
}
