# Pseudo character drivers: buffer I/O and resource lifecycle

This project models the core of three Linux pseudo character drivers from a driver-writing
tutorial repository:

- the multi-device driver `custom_drivers/003pseudo_char_driver_multiple/pcd_n.c`: its static
  device table, the bounded lseek/read/write bodies it keeps under `#if 0`, open and release,
  module init with its goto-style rollback, and module cleanup;
- the platform driver `custom_drivers/005_pcd_platform_driver_dt/pcd_platform_driver_dt.c`:
  its id and configuration tables, probe and remove for each matched platform device, and
  module init and cleanup;
- the first platform driver `custom_drivers/004_pcd_platform_driver/pcd_platform_driver.c`:
  the compiled I/O stubs, a probe that only checks for platform data, a remove that does
  nothing, and the same init and cleanup as the second platform driver.

The files:

- `kernel.dfy` (module `Kernel`): bytes, the errno values and whence constants used, `Option`.
- `ledger.dfy` (module `Ledger`): kernel resources as tokens. These are the device-number
  region, the class, a cdev, a device file and the registered platform driver. Every kernel
  call a driver makes acquires or releases one token.
  - `Replay` gives the tokens held after a sequence of calls.
  - `Disciplined` says whether every call was sound where it was made: acquire only what is
    new and whose prerequisites are held; release only what is held and nothing held depends on.
  - `Undo` is the reverse-order release of what a sequence acquired.
  - `KernelState` is the kernel as the drivers see it: the held tokens and the log of calls.
  - Releasing a token that is not held changes nothing. The kernel matches a region by its
    exact first number and count, so releasing `Region(base, 1)` does not free `Region(base, 4)`.
- `buffer_io.dfy` (module `BufferIo`): the lseek/read/write logic as specification functions,
  and the class `OpenFile`, an open file over an `array<byte>` device memory with a file
  position. Its methods are the C bodies, proved against those functions. The buffer length
  plays the part of `DEV_MEM_SIZE`, which `pcd_n.c` uses but never defines; it stands for each
  device's own `size`.
- `pcd_n.dfy` (module `PcdMulti`): the device table and the class `PcdDriver` (`pcdrv_data`).
  - `PcdDriver.Init` and `PcdDriver.Cleanup` run the C loops and log their kernel calls.
  - `InitOps` and `CleanupOps` say which calls those are for each failure.
  - Lemmas state what is held afterwards, and whether the calls were sound.
- `pcd_platform.dfy` (module `PcdPlatform`): the tables, the class `PlatformDriver`
  (`pcdrv_data` together with the private record of each bound device), and its probe, remove,
  init and cleanup methods, with the same kind of lemmas.
- `pcd_stubs.dfy` (module `PcdStubs`): the file operations as compiled, and the first platform
  driver's probe and remove. The stubs are identical in all three drivers.

The first platform driver's init and cleanup (`pcd_platform_driver.c` lines 126-166) are the
same calls in the same order as the second's, so `PcdPlatform.PlatformDriver.Init` and
`PcdPlatform.PlatformDriver.Cleanup` model both. The first driver's probe succeeds whenever
there is platform data, so the bus binds those devices, and `platform_driver_unregister` calls
its remove for each of them. That remove makes no kernel call, so its cleanup makes the same
kernel calls as the second driver's with no device bound.

Each failing kernel call is a parameter of the operation: an `InitFault`, `ProbeFault` or
`LoadFault` naming the first call that fails and its error, or a `fault` flag for a user-copy
fault. The device number `alloc_chrdev_region` hands out is a parameter `base`.

Some behaviour one might expect of such drivers is absent from the code, and the model does
not add it:

- Open makes no permission check and always returns 0; the permission word is only copied.
- Seek has no guard against arithmetic overflow (see "## Left out").
- Removing a device is not guarded against a device already removed, nor against I/O in
  progress on it.
- The second platform driver's probe takes its configuration only from the platform data; it
  reads no device-tree properties.

## Model

| member | source | states |
|---|---|---|
| BufferIo.Seek | custom_drivers/003pseudo_char_driver_multiple/pcd_n.c:85-112 | SEEK_SET succeeds exactly when 0 <= offset <= size and moves to offset. SEEK_CUR succeeds exactly when the new position stays in [0, size]; SEEK_END likewise, i.e. -size <= offset <= 0. Any other whence, and any position outside [0, size], gives EINVAL |
| BufferIo.Clamp | custom_drivers/003pseudo_char_driver_multiple/pcd_n.c:127-130 | the count is cut to min(count, size - pos) |
| BufferIo.ReadFrom | custom_drivers/003pseudo_char_driver_multiple/pcd_n.c:126-145 | read yields exactly min(count, size - pos) bytes, equal to buffer[pos..pos+n]. It fails, with EFAULT, exactly when the copy faults and there is something to copy; at the end of the device it yields 0 bytes, not an error |
| BufferIo.WriteAt | custom_drivers/003pseudo_char_driver_multiple/pcd_n.c:156-181 | write fails with ENOMEM exactly when the clamped count is 0, and with EFAULT exactly when the copy faults with something to copy. Otherwise it copies n = min(count, size - pos) > 0 bytes into buffer[pos..pos+n] and leaves every other byte alone |
| BufferIo.WriteThenReadBack | custom_drivers/003pseudo_char_driver_multiple/pcd_n.c:127-175 | reading back, at the same position, as many bytes as a write copied returns the written bytes |
| BufferIo.WriteAtStartRoundTrip | custom_drivers/003pseudo_char_driver_multiple/pcd_n.c:127-175 | data that fits, written at position 0, reads back in full |
| BufferIo.WriteClampedAtEnd | custom_drivers/003pseudo_char_driver_multiple/pcd_n.c:157-160 | on a 512-byte device, 50 bytes written at position 500 copy 12 |
| BufferIo.OpenFile.Lseek | custom_drivers/003pseudo_char_driver_multiple/pcd_n.c:77-116 | returns the new position and stores it, or returns -EINVAL with the position unchanged, as Seek says; 0 <= pos <= size is kept |
| BufferIo.OpenFile.Read | custom_drivers/003pseudo_char_driver_multiple/pcd_n.c:120-146 | returns ReadFrom's bytes and their count and advances past them, or returns -EFAULT with the position unchanged; the buffer is not modified |
| BufferIo.OpenFile.Write | custom_drivers/003pseudo_char_driver_multiple/pcd_n.c:150-182 | the device memory becomes WriteAt's buffer and the position advances by the count returned; on -ENOMEM or -EFAULT the memory and the position are unchanged |
| BufferIo.OpenFile.Open | custom_drivers/003pseudo_char_driver_multiple/pcd_n.c:186-191 | open returns 0 and changes nothing: there is no permission check |
| BufferIo.OpenFile.Release | custom_drivers/003pseudo_char_driver_multiple/pcd_n.c:193-198 | release returns 0 and changes nothing |
| PcdMulti.Device | custom_drivers/003pseudo_char_driver_multiple/pcd_n.c:46-75 | there is a record exactly for minors 0 to NO_OF_DEVICES - 1, and each record's size is the size of the memory it serves |
| PcdMulti.EntriesShareMemory | custom_drivers/003pseudo_char_driver_multiple/pcd_n.c:56-67 | as written, entries [1] and [2] name the same memory and serial number, and device_buffer_pcdev4 serves no entry |
| PcdMulti.IntendedEntriesDistinct | custom_drivers/003pseudo_char_driver_multiple/pcd_n.c:15-24 | in the corrected table the four entries have pairwise distinct memories and serials, each of its memory's size |
| PcdMulti.DeviceMemories.constructor | custom_drivers/003pseudo_char_driver_multiple/pcd_n.c:15-24 | four distinct zero-filled static memories of 1024, 512, 1024 and 512 bytes |
| PcdMulti.DeviceMemories.ForMinor | custom_drivers/003pseudo_char_driver_multiple/pcd_n.c:46-75 | the memory file I/O on minor i reaches is its record's memory, and its length is the record's size, for every minor that has a record |
| PcdMulti.SharedMemoryAliasing | custom_drivers/003pseudo_char_driver_multiple/pcd_n.c:56-67 | as written, bytes written through device 1 are what a read through device 2 returns |
| PcdMulti.IntendedMemoriesIsolated | custom_drivers/003pseudo_char_driver_multiple/pcd_n.c:20-24 | with the corrected table, a write through device 1 leaves device 2 reading zeros |
| PcdMulti.AcquireDevice | custom_drivers/003pseudo_char_driver_multiple/pcd_n.c:241-255 | with the region and the class held, cdev_add then device_create for a minor are sound and add exactly its cdev and device file |
| PcdMulti.ReleaseDevice | custom_drivers/003pseudo_char_driver_multiple/pcd_n.c:266-267 | device_destroy then cdev_del of a created minor are sound and drop exactly its two tokens |
| PcdMulti.ReleaseMissingDevice | custom_drivers/003pseudo_char_driver_multiple/pcd_n.c:264-268 | device_destroy of a minor whose device file was never created is unsound, and the pair drops the cdev if it was added |
| PcdMulti.AddThenDeleteCdev | custom_drivers/003pseudo_char_driver_multiple/pcd_n.c:241-254 | a cdev_add undone at once by cdev_del is sound and leaves the held set as it was |
| PcdMulti.SetupEffect | custom_drivers/003pseudo_char_driver_multiple/pcd_n.c:215-229 | from nothing, alloc_chrdev_region then class_create are sound and hold the NO_OF_DEVICES region and the class |
| PcdMulti.AddDevicesEffect | custom_drivers/003pseudo_char_driver_multiple/pcd_n.c:232-256 | the successful loop iterations are sound and add exactly the cdevs and device files of their minors |
| PcdMulti.LoopEffect | custom_drivers/003pseudo_char_driver_multiple/pcd_n.c:215-256 | setup and the first i iterations are sound and hold the core and minors 0 to i - 1 |
| PcdMulti.RollbackEffect | custom_drivers/003pseudo_char_driver_multiple/pcd_n.c:262-268 | rolling back created minors hi down to lo is sound and leaves exactly the core and the minors below lo |
| PcdMulti.ReleaseDevicesEffect | custom_drivers/003pseudo_char_driver_multiple/pcd_n.c:282-286 | the cleanup loop is sound and leaves exactly the region and the class |
| PcdMulti.TeardownEffect | custom_drivers/003pseudo_char_driver_multiple/pcd_n.c:269-272 | as written, the teardown drops the class but leaves the NO_OF_DEVICES region held, and its unregister call is unsound |
| PcdMulti.FixedTeardownEffect | custom_drivers/003pseudo_char_driver_multiple/pcd_n.c:269-272 | the corrected teardown is sound and leaves nothing held |
| PcdMulti.InitSucceeds | custom_drivers/003pseudo_char_driver_multiple/pcd_n.c:210-260 | an init that meets no failure returns 0, is sound, and holds the region, the class and every minor's cdev and device file |
| PcdMulti.InitReturnsError | custom_drivers/003pseudo_char_driver_multiple/pcd_n.c:215-276 | init returns 0 exactly when no kernel call fails, and otherwise the negative error of the call that failed |
| PcdMulti.PartialEffect | custom_drivers/003pseudo_char_driver_multiple/pcd_n.c:231-255 | after a failure at minor i init holds exactly the core, minors below i, and minor i's cdev when only device_create failed |
| PcdMulti.RollbackStartsAtFailedMinor | custom_drivers/003pseudo_char_driver_multiple/pcd_n.c:262-268 | as written, the first rollback calls are device_destroy of minor i, whose device file does not exist, then cdev_del of minor i, whose cdev does not exist after a failed cdev_add |
| PcdMulti.FailedOpsLeakRegion | custom_drivers/003pseudo_char_driver_multiple/pcd_n.c:262-276 | as written, a failure at any minor ends with the whole region still allocated, and the calls are not sound |
| PcdMulti.InitFailureLeaksRegion | custom_drivers/003pseudo_char_driver_multiple/pcd_n.c:222-276 | as written, every failure after alloc_chrdev_region leaves the region allocated, and the calls are not sound |
| PcdMulti.InitOpsOnDeviceFailure | custom_drivers/003pseudo_char_driver_multiple/pcd_n.c:241-254 | a cdev_add or device_create failure at minor i makes init's calls those of a failure at i, with the cdev added exactly when device_create failed |
| PcdMulti.CleanupLeaksRegion | custom_drivers/003pseudo_char_driver_multiple/pcd_n.c:279-291 | as written, cleanup after a successful init gives back every device and the class but leaves the region, and its last call is unsound |
| PcdMulti.UndoAddDevices | custom_drivers/003pseudo_char_driver_multiple/pcd_n.c:264-268 | the rollback of the loop's minors is the exact reverse-order undo of what the loop acquired |
| PcdMulti.FixedFailedIsUndo | custom_drivers/003pseudo_char_driver_multiple/pcd_n.c:262-272 | the corrected failure path releases exactly what was acquired, last first |
| PcdMulti.FixedUnwindSound | custom_drivers/003pseudo_char_driver_multiple/pcd_n.c:262-272 | the corrected rollback and teardown from minors 0 to i - 1 are sound and leave nothing |
| PcdMulti.FixedFailedSound | custom_drivers/003pseudo_char_driver_multiple/pcd_n.c:262-272 | the corrected failure path at minor i is sound and leaves nothing held |
| PcdMulti.FixedInitUndoesFailure | custom_drivers/003pseudo_char_driver_multiple/pcd_n.c:210-277 | in the corrected init, every failure releases exactly what was acquired, last first, soundly, leaving nothing held |
| PcdMulti.FixedInitKeepsSuccess | custom_drivers/003pseudo_char_driver_multiple/pcd_n.c:215-260 | the correction does not change an init that meets no failure |
| PcdMulti.FixedCleanupReleasesAll | custom_drivers/003pseudo_char_driver_multiple/pcd_n.c:279-291 | the corrected cleanup after a successful init is sound and leaves nothing held |
| PcdMulti.PcdDriver.constructor | custom_drivers/003pseudo_char_driver_multiple/pcd_n.c:46-48 | the driver state starts with total_devices = NO_OF_DEVICES |
| PcdMulti.PcdDriver.Init | custom_drivers/003pseudo_char_driver_multiple/pcd_n.c:210-277 | init returns InitRet of the first failure and makes exactly the calls InitOps gives for it; the device number is stored once alloc_chrdev_region succeeds |
| PcdMulti.PcdDriver.AddAll | custom_drivers/003pseudo_char_driver_multiple/pcd_n.c:231-256 | the loop stops at minor i < NO_OF_DEVICES exactly when a cdev_add or device_create fails there, and runs to the end otherwise. It has made the calls of the iterations before i, plus minor i's cdev_add when device_create failed |
| PcdMulti.PcdDriver.Unwind | custom_drivers/003pseudo_char_driver_multiple/pcd_n.c:262-272 | the rollback loop makes device_destroy then cdev_del from minor top down to 0, then class_destroy and unregister_chrdev_region of 1 number |
| PcdMulti.PcdDriver.Cleanup | custom_drivers/003pseudo_char_driver_multiple/pcd_n.c:279-291 | cleanup makes exactly the calls CleanupOps gives |
| PcdPlatform.MatchFrom | custom_drivers/005_pcd_platform_driver_dt/pcd_platform_driver_dt.c:40-47 | the id-table lookup finds the first entry with the name before the null entry. It finds one whenever such an entry exists, and never matches the empty name |
| PcdPlatform.IdTableWellFormed | custom_drivers/005_pcd_platform_driver_dt/pcd_platform_driver_dt.c:25-47 | the id table ends with the null entry, and its four names are distinct. Entry k carries k, and pcdev_config[k] is (60 - 10k, 21 + k) |
| PcdPlatform.IdTableMatches | custom_drivers/005_pcd_platform_driver_dt/pcd_platform_driver_dt.c:165-166 | each supported name matches its own entry, so the pcdev_config index probe reads is in bounds |
| PcdPlatform.ProbeReturns | custom_drivers/005_pcd_platform_driver_dt/pcd_platform_driver_dt.c:127-206 | probe returns 0 exactly when there is platform data with a non-negative size and no step fails, and every failure is negative. Missing platform data gives -EINVAL before any call. A device file is created exactly when probe succeeds. Both hold for every device-number base |
| PcdPlatform.ProbeSound | custom_drivers/005_pcd_platform_driver_dt/pcd_platform_driver_dt.c:178-199 | with the region and class held and the device's number free, probe is sound. On success it adds exactly the device's cdev and device file. On any failure, including a failed device_create after cdev_add, it holds what it held before |
| PcdPlatform.ProbeRemoveRestores | custom_drivers/005_pcd_platform_driver_dt/pcd_platform_driver_dt.c:105-124 | remove's calls are the reverse-order undo of a successful probe's, and probe then remove is sound and restores the held set |
| PcdPlatform.ProbeAcceptsOutOfRangeId | custom_drivers/005_pcd_platform_driver_dt/pcd_platform_driver_dt.c:178-189 | as written, a device with id MAX_DEVICES probes successfully, though its cdev_add is on a number the region does not cover |
| PcdPlatform.CheckedProbeSound | custom_drivers/005_pcd_platform_driver_dt/pcd_platform_driver_dt.c:178-199 | probe with the id bounded is sound for every id and succeeds only for ids in range. For those ids it is the unchecked probe |
| PcdPlatform.LoadSucceeds | custom_drivers/005_pcd_platform_driver_dt/pcd_platform_driver_dt.c:217-244 | a successful init returns 0, is sound, and holds the MAX_DEVICES region, the class and the driver |
| PcdPlatform.LoadFailureHoldsNothing | custom_drivers/005_pcd_platform_driver_dt/pcd_platform_driver_dt.c:222-237 | a region or class failure returns its negative error, soundly, with nothing held; the class path gives back all MAX_DEVICES numbers |
| PcdPlatform.UnloadUndoesLoad | custom_drivers/005_pcd_platform_driver_dt/pcd_platform_driver_dt.c:246-257 | cleanup's calls are the reverse-order undo of a successful init's, sound, and leave nothing held |
| PcdPlatform.RegisterResultIgnored | custom_drivers/005_pcd_platform_driver_dt/pcd_platform_driver_dt.c:239-243 | as written, init reports success when platform_driver_register fails. No driver is then held, and cleanup from that state is unsound |
| PcdPlatform.CheckedLoadSound | custom_drivers/005_pcd_platform_driver_dt/pcd_platform_driver_dt.c:217-244 | init with the register result checked is sound and returns 0 exactly when the driver ends up registered. A failure returns a negative error with nothing held |
| PcdPlatform.DetachEffect | custom_drivers/005_pcd_platform_driver_dt/pcd_platform_driver_dt.c:105-124 | removing distinct bound devices in sequence is sound and drops exactly their cdevs and device files |
| PcdPlatform.UnloadAfterProbes | custom_drivers/005_pcd_platform_driver_dt/pcd_platform_driver_dt.c:246-257 | cleanup of a loaded driver with any set of probed devices is sound and leaves nothing held |
| PcdPlatform.DevicePrivate.constructor | custom_drivers/005_pcd_platform_driver_dt/pcd_platform_driver_dt.c:157-178 | the private record holds the copied platform data, the buffer and the device number |
| PcdPlatform.PlatformDriver.constructor | custom_drivers/005_pcd_platform_driver_dt/pcd_platform_driver_dt.c:59-67 | the zero-initialised global state: no devices, nothing bound |
| PcdPlatform.PlatformDriver.Init | custom_drivers/005_pcd_platform_driver_dt/pcd_platform_driver_dt.c:217-244 | init returns LoadRet and makes exactly the calls LoadOps gives, in order; the number base is stored once allocated; the bound devices and total_devices are left as they were (the probes made inside platform_driver_register are separate Probe calls) |
| PcdPlatform.PlatformDriver.Probe | custom_drivers/005_pcd_platform_driver_dt/pcd_platform_driver_dt.c:127-206 | probe returns ProbeRet and makes the calls ProbeOps gives. On success the device is bound to a fresh record: a copy of its platform data, a fresh zero-filled buffer of exactly size bytes, and number base + id; total_devices grows by one and device_pcd names the new device. On failure the bound devices and total_devices are unchanged |
| PcdPlatform.PlatformDriver.AddCdev | custom_drivers/005_pcd_platform_driver_dt/pcd_platform_driver_dt.c:180-199 | cdev_add, then device_create; a device_create failure deletes the cdev again and leaves device_pcd holding the error |
| PcdPlatform.PlatformDriver.Remove | custom_drivers/005_pcd_platform_driver_dt/pcd_platform_driver_dt.c:105-124 | remove returns 0 after device_destroy then cdev_del of the device's number, dropping exactly those two tokens; the device is unbound and total_devices decreases by one |
| PcdPlatform.PlatformDriver.DetachAll | custom_drivers/005_pcd_platform_driver_dt/pcd_platform_driver_dt.c:248-249 | platform_driver_unregister removes every bound device exactly once, in some order, logging each device's remove calls; the region's base and device_pcd are left as they were |
| PcdPlatform.PlatformDriver.Cleanup | custom_drivers/005_pcd_platform_driver_dt/pcd_platform_driver_dt.c:246-257 | cleanup removes every bound device exactly once, in some order, logging each one's remove calls with its own device number; then it releases the driver, the class and the MAX_DEVICES region, in that order; nothing stays bound and total_devices is 0; the region's base and device_pcd are left as they were |
| PcdStubs.Lseek | custom_drivers/004_pcd_platform_driver/pcd_platform_driver.c:36-39 | the compiled lseek returns 0 whatever is asked |
| PcdStubs.Read | custom_drivers/004_pcd_platform_driver/pcd_platform_driver.c:41-44 | the compiled read returns 0 |
| PcdStubs.Write | custom_drivers/004_pcd_platform_driver/pcd_platform_driver.c:46-49 | the compiled write returns -ENOMEM |
| PcdStubs.Open | custom_drivers/004_pcd_platform_driver/pcd_platform_driver.c:51-54 | the compiled open returns 0 |
| PcdStubs.Release | custom_drivers/004_pcd_platform_driver/pcd_platform_driver.c:56-59 | the compiled release returns 0 |
| PcdStubs.StubsAreAnEmptyDevice | custom_drivers/003pseudo_char_driver_multiple/pcd_n.c:116-117 | the compiled stubs answer as the buffer logic does for a device of 0 bytes: read finds end of file, write finds no space, and a successful seek lands on 0 |
| PcdStubs.Probe | custom_drivers/004_pcd_platform_driver/pcd_platform_driver.c:79-116 | the first driver's probe returns 0 exactly when there is platform data, and -EINVAL otherwise |
| PcdStubs.Remove | custom_drivers/004_pcd_platform_driver/pcd_platform_driver.c:72-76 | the first driver's remove returns 0 |
| PcdStubs.ProbeIsFirstStepOfFullProbe | custom_drivers/004_pcd_platform_driver/pcd_platform_driver.c:89-95 | the first driver's probe refuses exactly the devices the full probe refuses before allocating anything, with the same error. It accepts every device the full probe accepts, and the full probe accepts it when nothing fails |

## Left out

- Logging (`pr_info`, `pr_err`, `pr_fmt`) and the `MODULE_*` metadata: they have no effect on state. So probe's print of the two `pcdev_config` items is modelled only as the table lookup being in bounds.
- The internals of the kernel calls are not modelled. This covers `alloc_chrdev_region`, `class_create`, `cdev_init`/`cdev_add`, `device_create`/`device_destroy`, `devm_kzalloc`, `platform_driver_register`/`platform_driver_unregister`, `dev_get_platdata` and `dev_set_drvdata`. Each is an acquire or a release of a token, with its failure given as a parameter.
- The `struct cdev` and `struct class` objects themselves: only whether they are registered is tracked.
- `copy_to_user` and `copy_from_user`: there is no user memory, and a copy fault is a parameter.
- BufferIo.OpenFile.Write: a faulting `copy_from_user` is modelled as copying nothing, though the real call may copy part of the data before it faults.
- BufferIo.Seek: offsets are mathematical integers. The 64-bit `loff_t` additions at `pcd_n.c` lines 95 and 103 can overflow, and the code has no guard against that.
- The `#if 0` bodies refer to one global `device_buffer` of `DEV_MEM_SIZE` bytes, neither of which `pcd_n.c` defines. In the model each open file reaches its device's own memory, and the memory's length is the bound.
- Which device's memory an open file reaches: `pcd_n.c` has no code that picks the record from the inode. The model opens a file for minor i on `DeviceMemories.ForMinor(i)`, the memory of record i.
- The second platform driver's file operations are the same five stubs as the first's (`pcd_platform_driver_dt.c` lines 69-92), and `PcdStubs` models both.
- PcdPlatform.PlatformDriver.Init: `platform_driver_register` (line 240) probes every matching platform device already registered before init returns. The model leaves those probes to separate `Probe` calls made after `Init`, while `Cleanup` does include the removes that `platform_driver_unregister` makes.
- BufferIo.ReadFrom: a position beyond the end of the device memory is not modelled; pread can pass one through `*f_pos`, since lseek bounds only `filp->f_pos`. There `DEV_MEM_SIZE - *f_pos` (`pcd_n.c` lines 127-130) wraps to a huge `size_t` count, and the copy fails with -EFAULT instead of returning 0.
- BufferIo.WriteAt: a position beyond the end of the device memory is not modelled; pwrite can pass one through `*f_pos`. There the clamped count (`pcd_n.c` lines 157-160) wraps to a huge non-zero `size_t`, so the -ENOMEM check is skipped and the copy fails with -EFAULT.
- PcdPlatform.PlatformDriver.Probe: `dev_set_drvdata` runs before the buffer allocation and cdev calls can fail. The model binds the record only on success, because the device-managed allocations and the binding are dropped by the bus when probe fails.
- PcdPlatform.PlatformDriver.Probe: a negative `size` from the platform data is modelled as a failed allocation (-ENOMEM). The kernel converts it to a huge `size_t`, which `devm_kzalloc` refuses.
- PcdPlatform.PlatformDriver.Probe: requires that the device is not already bound, as the platform bus only probes unbound devices. Duplicate device ids among different devices are not excluded, just as the code does not exclude them.
- PcdPlatform.DevicePrivate.constructor: the record is built with its fields in one step, not field by field as at lines 157-178. No field is read before it is set.
- PcdPlatform.PlatformDriver.Cleanup: the order in which `platform_driver_unregister` removes the bound devices is the bus's choice. The method returns it as a ghost value and does not fix it.
- The held tokens of the kernel are kept equal to the replay of the call log by `KernelState.Valid`. The driver methods therefore state the log, and the lemmas state what is held.
- The id-table match (`MatchFrom`) is what the platform bus does before calling probe. Probe itself receives the device and its id.
- `pcd_n.c` never changes `total_devices` after its static initialisation.
- Line 83 of `custom_drivers/004_pcd_platform_driver/pcd_platform_driver.c` declares `struct pcdev_private data *dev_data`, which does not compile, and the variable is never used. The model leaves it out.
- `platform.h` defines `RDONLY` as 0x10 and `WRONLY` as 0x01, while the comments at `pcd_n.c` lines 54 and 60 say the opposite. The permission words are only copied, never checked, so nothing depends on which is right.
- Locking, reference counts, and concurrent probe, remove or I/O: the code has none.

## Findings

| source | as written | input that shows it | evidently intended | confidence | as-written member | corrected member |
|---|---|---|---|---|---|---|
| custom_drivers/003pseudo_char_driver_multiple/pcd_n.c:272 | init's error path and cleanup (line 288) unregister 1 device number, but line 215 allocated NO_OF_DEVICES | class_create failing after alloc_chrdev_region succeeded, or any successful init followed by cleanup | unregister_chrdev_region(device_number, NO_OF_DEVICES) | not executed | PcdMulti.InitFailureLeaksRegion | PcdMulti.FixedInitUndoesFailure |
| custom_drivers/003pseudo_char_driver_multiple/pcd_n.c:288 | cleanup unregisters 1 device number of the NO_OF_DEVICES allocated | any successful init followed by cleanup | unregister_chrdev_region(device_number, NO_OF_DEVICES) | not executed | PcdMulti.CleanupLeaksRegion | PcdMulti.FixedCleanupReleasesAll |
| custom_drivers/003pseudo_char_driver_multiple/pcd_n.c:264 | the rollback starts at the failing minor i, destroying a device file that was never created, and after a failed cdev_add a cdev that was never added | cdev_add failing at minor 0 | delete minor i's cdev only when it was added, then roll back from i - 1 | not executed | PcdMulti.RollbackStartsAtFailedMinor | PcdMulti.FixedFailedSound |
| custom_drivers/003pseudo_char_driver_multiple/pcd_n.c:63 | entries [1] and [2] both use device_buffer_pcdev2 and serial PCDEV2XYZ123, and device_buffer_pcdev4 is unused | writing bytes to device 1, then reading device 2 | entry [2] uses device_buffer_pcdev3 and entry [3] device_buffer_pcdev4, each with its own serial | not executed | PcdMulti.SharedMemoryAliasing | PcdMulti.IntendedMemoriesIsolated |
| custom_drivers/005_pcd_platform_driver_dt/pcd_platform_driver_dt.c:178 | probe never checks the device id against MAX_DEVICES, so cdev_add can register a number outside the reserved region | a platform device with id 2 and platform data of size 0 | refuse an id outside [0, MAX_DEVICES) with -EINVAL | not executed | PcdPlatform.ProbeAcceptsOutOfRangeId | PcdPlatform.CheckedProbeSound |
| custom_drivers/005_pcd_platform_driver_dt/pcd_platform_driver_dt.c:240 | the result of platform_driver_register is ignored and init returns 0 | platform_driver_register failing | on failure destroy the class, unregister the region, and return the error | not executed | PcdPlatform.RegisterResultIgnored | PcdPlatform.CheckedLoadSound |
