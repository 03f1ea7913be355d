/**
 * Bounded I/O on one pseudo device: lseek, read and write move a file position over a
 * fixed-size byte buffer. These are the bodies pcd_n.c keeps under `#if 0`, with the buffer
 * length in the role of DEV_MEM_SIZE (the per-device `size`).
 */
module BufferIo {
  import opened Kernel

  /** What an operation achieved, before it is folded into the C return value. */
  datatype Outcome<T> = Done(value: T) | Fail(errno: int)

  /** The outcome of a write: the new buffer contents and the number of bytes copied in. */
  datatype Written = Written(buffer: seq<byte>, count: nat)

  function Min(a: int, b: int): int {
    if a < b then a else b
  }

  /** The position lseek moves to, or EINVAL. The offset arithmetic is on mathematical integers. */
  function Seek(size: nat, pos: int, offset: int, whence: int): (r: Outcome<nat>)
    ensures r.Done? ==> r.value <= size
    ensures r.Fail? ==> r.errno == EINVAL
    ensures whence == SEEK_SET ==> (r.Done? <==> 0 <= offset <= size) && (r.Done? ==> r.value == offset)
    ensures whence == SEEK_CUR ==> (r.Done? <==> -pos <= offset <= size - pos) && (r.Done? ==> r.value == pos + offset)
    ensures whence == SEEK_END ==> (r.Done? <==> -(size as int) <= offset <= 0) && (r.Done? ==> r.value == size + offset)
    ensures whence != SEEK_SET && whence != SEEK_CUR && whence != SEEK_END ==> r == Fail(EINVAL)
  {
    if whence == SEEK_SET then
      if offset > size || offset < 0 then Fail(EINVAL) else Done(offset)
    else if whence == SEEK_CUR then
      var tmp := pos + offset;
      if tmp > size || tmp < 0 then Fail(EINVAL) else Done(tmp)
    else if whence == SEEK_END then
      var tmp := size + offset;
      if tmp > size || tmp < 0 then Fail(EINVAL) else Done(tmp)
    else
      Fail(EINVAL)
  }

  /** The request cut down to the bytes left before the end of the device. */
  function Clamp(size: nat, pos: nat, count: nat): (n: nat)
    requires pos <= size
    ensures n == Min(count, size - pos)
  {
    if pos + count > size then size - pos else count
  }

  /**
   * The bytes read copies out, or EFAULT when copy_to_user faults (`fault`); a copy of
   * no bytes cannot fault, so reading at the end of the device yields no bytes, not an error.
   */
  function ReadFrom(buf: seq<byte>, pos: nat, count: nat, fault: bool): (r: Outcome<seq<byte>>)
    requires pos <= |buf|
    ensures r.Done? ==> |r.value| == Min(count, |buf| - pos) && r.value == buf[pos..pos + |r.value|]
    ensures r.Fail? <==> fault && Min(count, |buf| - pos) > 0
    ensures r.Fail? ==> r.errno == EFAULT
  {
    var n := Clamp(|buf|, pos, count);
    if fault && n > 0 then Fail(EFAULT) else Done(buf[pos..pos + n])
  }

  /**
   * The buffer after write copies in `data` at `pos`, or ENOMEM when nothing can be written,
   * or EFAULT when copy_from_user faults (`fault`).
   */
  function WriteAt(buf: seq<byte>, pos: nat, data: seq<byte>, fault: bool): (r: Outcome<Written>)
    requires pos <= |buf|
    ensures r.Fail? ==> r.errno == ENOMEM || r.errno == EFAULT
    ensures r == Fail(ENOMEM) <==> Min(|data|, |buf| - pos) == 0
    ensures r == Fail(EFAULT) <==> fault && Min(|data|, |buf| - pos) > 0
    ensures r.Done? ==>
      var n := r.value.count;
      n == Min(|data|, |buf| - pos) && n > 0 && |r.value.buffer| == |buf|
      && r.value.buffer[pos..pos + n] == data[..n]
      && r.value.buffer[..pos] == buf[..pos]
      && r.value.buffer[pos + n..] == buf[pos + n..]
  {
    var n := Clamp(|buf|, pos, |data|);
    if n == 0 then Fail(ENOMEM)
    else if fault then Fail(EFAULT)
    else Done(Written(buf[..pos] + data[..n] + buf[pos + n..], n))
  }

  /** Writing at a position and reading the same number of bytes back from it returns what was written. */
  lemma WriteThenReadBack(buf: seq<byte>, pos: nat, data: seq<byte>)
    requires pos < |buf| && |data| > 0
    ensures WriteAt(buf, pos, data, false).Done?
    ensures var w := WriteAt(buf, pos, data, false).value;
      ReadFrom(w.buffer, pos, w.count, false) == Done(data[..w.count])
  {
    var w := WriteAt(buf, pos, data, false).value;
    assert w.buffer[pos..pos + w.count] == data[..w.count];
  }

  /** A write whose data fits completely returns exactly that data from the start of the device. */
  lemma WriteAtStartRoundTrip(buf: seq<byte>, data: seq<byte>)
    requires 0 < |data| <= |buf|
    ensures WriteAt(buf, 0, data, false).Done?
    ensures ReadFrom(WriteAt(buf, 0, data, false).value.buffer, 0, |data|, false) == Done(data)
  {
    WriteThenReadBack(buf, 0, data);
    assert data[..|data|] == data;
  }

  /** The clamp at work: on a 512-byte device, 50 bytes written at position 500 copy 12. */
  lemma WriteClampedAtEnd(buf: seq<byte>, data: seq<byte>)
    requires |buf| == 512 && |data| == 50
    ensures WriteAt(buf, 500, data, false).Done? && WriteAt(buf, 500, data, false).value.count == 12
  {
  }

  /** The C return value of lseek: the new position, or the negated errno. */
  function SeekReturn(r: Outcome<nat>): int {
    match r
    case Done(p) => p
    case Fail(e) => -e
  }

  /**
   * An open file on a pseudo device: the device memory it reaches and its file position
   * (`filp->f_pos`). Several open files may reach the same memory.
   */
  class OpenFile {
    const buffer: array<byte>
    var pos: int

    ghost predicate Valid()
      reads this
    {
      0 <= pos <= buffer.Length
    }

    /** The file as the VFS hands it to the driver on open: positioned at the start. */
    constructor (buffer: array<byte>)
      ensures Valid() && this.buffer == buffer && pos == 0
    {
      this.buffer := buffer;
      pos := 0;
    }

    /** pcd_lseek: move the position within [0, size] or return -EINVAL leaving it alone. */
    method Lseek(offset: int, whence: int) returns (ret: int)
      requires Valid()
      modifies this`pos
      ensures Valid()
      ensures var r := Seek(buffer.Length, old(pos), offset, whence);
        ret == SeekReturn(r) && pos == (if r.Done? then r.value else old(pos))
    {
      var tmp: int;
      if whence == SEEK_SET {
        if offset > buffer.Length || offset < 0 {
          return -EINVAL;
        }
        pos := offset;
      } else if whence == SEEK_CUR {
        tmp := pos + offset;
        if tmp > buffer.Length || tmp < 0 {
          return -EINVAL;
        }
        pos := pos + offset;
      } else if whence == SEEK_END {
        tmp := buffer.Length + offset;
        if tmp > buffer.Length || tmp < 0 {
          return -EINVAL;
        }
        pos := buffer.Length + offset;
      } else {
        return -EINVAL;
      }
      ret := pos;
    }

    /** pcd_read: copy out up to `count` bytes from the position and advance past them. */
    method Read(count: nat, fault: bool) returns (ret: int, out: seq<byte>)
      requires Valid()
      modifies this`pos
      ensures Valid()
      ensures var r := ReadFrom(old(buffer[..]), old(pos), count, fault);
        match r
        case Done(bytes) => ret == |bytes| && out == bytes && pos == old(pos) + |bytes|
        case Fail(e) => ret == -e && out == [] && pos == old(pos)
    {
      var n := count;
      if pos + n > buffer.Length {
        n := buffer.Length - pos;
      }
      if fault && n > 0 {
        return -EFAULT, [];
      }
      out := buffer[pos..pos + n];
      pos := pos + n;
      ret := n;
    }

    /** pcd_write: copy in as much of `data` as fits from the position and advance past it. */
    method Write(data: seq<byte>, fault: bool) returns (ret: int)
      requires Valid()
      modifies this`pos, buffer
      ensures Valid()
      ensures var r := WriteAt(old(buffer[..]), old(pos), data, fault);
        match r
        case Done(w) => ret == w.count && buffer[..] == w.buffer && pos == old(pos) + w.count
        case Fail(e) => ret == -e && buffer[..] == old(buffer[..]) && pos == old(pos)
    {
      var n := |data|;
      if pos + n > buffer.Length {
        n := buffer.Length - pos;
      }
      if n == 0 {
        return -ENOMEM;
      }
      if fault {
        return -EFAULT;
      }
      forall k | pos <= k < pos + n {
        buffer[k] := data[k - pos];
      }
      assert buffer[..] == old(buffer[..])[..pos] + data[..n] + old(buffer[..])[pos + n..];
      pos := pos + n;
      ret := n;
    }

    /** pcd_open: succeeds and touches nothing; there is no permission check. */
    method Open() returns (ret: int)
      ensures ret == 0
    {
      ret := 0;
    }

    /** pcd_release: succeeds and touches nothing. */
    method Release() returns (ret: int)
      ensures ret == 0
    {
      ret := 0;
    }
  }
}
