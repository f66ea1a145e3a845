// The byte-field helpers over an open file of the flash file system or the
// SD card: big-endian 16, 24 and 32-bit reads into zero-filled buffers, the
// 16-bit write, the flash-path test and the flash file name.
//
// Both file systems behave alike here (`char` is unsigned on the RP2040, so
// the flash branch's `char` buffers compute what the SD branch's `uint8_t`
// buffers do), so one file object stands for whichever of them `is_flash`
// selects.

module FileIo {
  import opened Common
  import opened Text

  /** `n` bytes of `data` from `pos` on, with zeros where the file has ended. */
  function Fetch(data: seq<u8>, pos: nat, n: nat): (r: seq<u8>)
    ensures |r| == n
    ensures forall i :: 0 <= i < n ==> r[i] == if pos + i < |data| then data[pos + i] else 0
  {
    if n == 0 then [] else Fetch(data, pos, n - 1) + [if pos + n - 1 < |data| then data[pos + n - 1] else 0]
  }

  /** The file after writing `b` at `pos`: a gap past the end reads as zeros. */
  function Put(data: seq<u8>, pos: nat, b: u8): (r: seq<u8>)
    ensures |r| == if pos < |data| then |data| else pos + 1
    ensures r[pos] == b
    ensures forall i :: 0 <= i < |r| && i != pos ==> r[i] == if i < |data| then data[i] else 0
  {
    if pos < |data| then data[pos := b]
    else data + Zeros(pos - |data|) + [b]
  }

  function Zeros(n: nat): (r: seq<u8>)
    ensures |r| == n && forall i :: 0 <= i < n ==> r[i] == 0
  {
    if n == 0 then [] else Zeros(n - 1) + [0]
  }

  /** Big-endian value of two, three and four bytes. */
  function Be16(b: seq<u8>): (v: nat)
    requires |b| == 2
    ensures v < 0x1_0000
  {
    b[1] as int + b[0] as int * 256
  }

  function Be24(b: seq<u8>): (v: nat)
    requires |b| == 3
    ensures v < 0x100_0000
  {
    b[2] as int + b[1] as int * 256 + b[0] as int * 256 * 256
  }

  /**
   * The sum of `file_read32` is computed in `int`: with a first byte of 128
   * or more it overflows, and the two's complement wrap that the compiler
   * produces, taken modulo 2^32 on return, gives this value.
   */
  function Be32(b: seq<u8>): (v: nat)
    requires |b| == 4
    ensures v < 0x1_0000_0000
  {
    b[3] as int + b[2] as int * 256 + b[1] as int * 256 * 256 + b[0] as int * 256 * 256 * 256
  }

  /** The two bytes a 16-bit value is stored as, most significant first. */
  function Be16Bytes(v: nat): (b: seq<u8>)
    requires v < 0x1_0000
    ensures |b| == 2
  {
    [v / 256, v % 256]
  }

  /** Storing a value and reading it back, and reading two bytes and storing the value, are identities. */
  lemma Be16RoundTrip(v: nat, b: seq<u8>)
    requires v < 0x1_0000 && |b| == 2
    ensures Be16(Be16Bytes(v)) == v
    ensures Be16Bytes(Be16(b)) == b
  {
  }

  /** The 24 and 32-bit reads extend the 16-bit one byte by byte. */
  lemma BeExtends(b: seq<u8>)
    requires |b| == 4
    ensures Be24(b[..3]) == Be16(b[..2]) * 256 + b[2]
    ensures Be32(b) == Be24(b[..3]) * 256 + b[3]
  {
  }

  /** A value has one last base-256 digit and one rest. */
  lemma DigitsUnique(q1: nat, r1: u8, q2: nat, r2: u8)
    requires q1 * 256 + r1 == q2 * 256 + r2
    ensures q1 == q2 && r1 == r2
  {
  }

  /** Different byte strings read as different values: the reads lose nothing. */
  lemma Be32Injective(a: seq<u8>, b: seq<u8>)
    requires |a| == 4 && |b| == 4 && Be32(a) == Be32(b)
    ensures a == b
  {
    BeExtends(a);
    BeExtends(b);
    DigitsUnique(Be24(a[..3]), a[3], Be24(b[..3]), b[3]);
    DigitsUnique(Be16(a[..2]), a[2], Be16(b[..2]), b[2]);
    assert Be16(a[..2]) == a[1] as int + a[0] as int * 256;
    assert Be16(b[..2]) == b[1] as int + b[0] as int * 256;
    DigitsUnique(a[0], a[1], b[0], b[1]);
  }

  /** `is_flashfs`: a path on the flash file system starts with '/'; an empty one does not. */
  predicate IsFlashFs(filename: string)
  {
    |filename| > 0 && filename[0] == '/'
  }

  /** The flash branch of `file_get_name`: "/" and the full name, cut to fit a `len`-byte buffer. */
  function FlashName(fullName: string, len: nat): (r: string)
    ensures len >= 2 ==> IsFlashFs(r)
    ensures |r| < len || len == 0
  {
    CharArrayPrefix("/" + fullName, len);
    CharArray("/" + fullName, len)
  }

  /** A file opened on either file system: its bytes and the read/write position. */
  class OpenFile {
    var data: seq<u8>
    var pos: nat

    constructor (data: seq<u8>)
      ensures this.data == data && pos == 0
    {
      this.data := data;
      pos := 0;
    }

    /** `file_seek`. */
    method Seek(p: nat)
      modifies this
      ensures pos == p && data == old(data)
    {
      pos := p;
    }

    /** `readBytes`: up to `n` bytes, fewer where the file ends. */
    method ReadBytes(n: nat) returns (r: seq<u8>)
      modifies this
      ensures data == old(data)
      ensures r == if old(pos) >= |data| then [] else data[old(pos)..if old(pos) + n <= |data| then old(pos) + n else |data|]
      ensures pos == old(pos) + |r|
    {
      if pos >= |data| {
        r := [];
      } else {
        var end := if pos + n <= |data| then pos + n else |data|;
        r := data[pos..end];
        pos := end;
      }
    }

    /** Reads `n` bytes at `p` into an `n`-byte buffer that starts out zeroed. */
    method ReadInto(p: nat, n: nat) returns (buf: seq<u8>)
      modifies this
      ensures data == old(data)
      ensures buf == Fetch(data, p, n)
    {
      Seek(p);
      var got := ReadBytes(n);
      buf := got + Zeros(n - |got|);
    }

    /** `file_read16`. */
    method Read16(p: nat) returns (v: nat)
      modifies this
      ensures data == old(data)
      ensures v == Be16(Fetch(data, p, 2))
    {
      var buf := ReadInto(p, 2);
      v := buf[1] as int + buf[0] as int * 256;
    }

    /** `file_read24`. */
    method Read24(p: nat) returns (v: nat)
      modifies this
      ensures data == old(data)
      ensures v == Be24(Fetch(data, p, 3))
    {
      var buf := ReadInto(p, 3);
      v := buf[2] as int + buf[1] as int * 256 + buf[0] as int * 256 * 256;
    }

    /** `file_read32`. */
    method Read32(p: nat) returns (v: nat)
      modifies this
      ensures data == old(data)
      ensures v == Be32(Fetch(data, p, 4))
    {
      var buf := ReadInto(p, 4);
      v := buf[3] as int + buf[2] as int * 256 + buf[1] as int * 256 * 256 + buf[0] as int * 256 * 256 * 256;
    }

    /** `write`: one byte at the position, which then moves past it. */
    method Write(b: u8)
      modifies this
      ensures data == Put(old(data), old(pos), b) && pos == old(pos) + 1
    {
      data := Put(data, pos, b);
      pos := pos + 1;
    }

    /**
     * `file_write16` as written: the cast binds before the shift, so the
     * byte stored at `p` is `((uint8_t) val) >> 8`, which is always 0.
     */
    method Write16AsWritten(p: nat, val: nat)
      requires val < 0x1_0000
      modifies this
      ensures data == Put(Put(old(data), p, 0), p + 1, val % 256)
      ensures Be16(Fetch(data, p, 2)) == val % 256
    {
      Write16AsWrittenReadBack(data, p, val);
      Seek(p);
      Write((val % 256) / 256);
      Seek(p + 1);
      Write(val % 256);
    }

    /** `file_write16` as intended: the high byte at `p`, the low byte at `p + 1`. */
    method Write16(p: nat, val: nat)
      requires val < 0x1_0000
      modifies this
      ensures data == Put(Put(old(data), p, val / 256), p + 1, val % 256)
      ensures Be16(Fetch(data, p, 2)) == val
    {
      Write16ReadBack(data, p, val);
      Seek(p);
      Write(val / 256);
      Seek(p + 1);
      Write(val % 256);
    }
  }

  /** Two bytes written at `p` and `p + 1` are the two bytes read back from `p`. */
  lemma FetchAfterPut(data: seq<u8>, p: nat, hi: u8, lo: u8)
    ensures Fetch(Put(Put(data, p, hi), p + 1, lo), p, 2) == [hi, lo]
  {
  }

  /** The intended write reads back as the value stored. */
  lemma Write16ReadBack(data: seq<u8>, p: nat, val: nat)
    requires val < 0x1_0000
    ensures Be16(Fetch(Put(Put(data, p, val / 256), p + 1, val % 256), p, 2)) == val
  {
    FetchAfterPut(data, p, val / 256, val % 256);
  }

  /** The write as written reads back as the low byte alone. */
  lemma Write16AsWrittenReadBack(data: seq<u8>, p: nat, val: nat)
    requires val < 0x1_0000
    ensures Be16(Fetch(Put(Put(data, p, 0), p + 1, val % 256), p, 2)) == val % 256
  {
    FetchAfterPut(data, p, 0, val % 256);
  }

  /** Writing 0x0100 as written and reading it back gives 0. */
  lemma Write16AsWrittenLoses(data: seq<u8>, p: nat)
    ensures Be16(Fetch(Put(Put(data, p, 0), p + 1, 0x0100 % 256), p, 2)) == 0
  {
    Write16AsWrittenReadBack(data, p, 0x0100);
  }
}
