/** Types and constants the pseudo character drivers share with the kernel interfaces they call. */
module Kernel {
  /** One byte of device memory. */
  newtype byte = b: int | 0 <= b < 256

  /** errno values (asm-generic/errno-base.h); the drivers return them negated. */
  const ENOMEM: int := 12
  const EFAULT: int := 14
  const EINVAL: int := 22

  /** The `whence` values lseek recognises. */
  const SEEK_SET: int := 0
  const SEEK_CUR: int := 1
  const SEEK_END: int := 2

  datatype Option<T> = None | Some(value: T)
}
