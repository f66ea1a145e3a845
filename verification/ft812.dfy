// Driver for the FT812 video co-processor that sits behind the FPGA. The MCU
// never talks to the chip directly: every SPI transaction is framed as a
// series of three-byte messages to the FPGA (`action(cmd, addr, data)`),
// which replays them on the chip's own SPI bus and feeds the bytes it reads
// back through `setData`. The model records the messages in `sent`.
//
// FT81x register addresses (RAM_CMD, REG_CMD_WRITE, the timing registers)
// come from the FT81x datasheet; the header that defines them is not part
// of this model.

module FT812 {
  import opened Common

  // Link command codes and their register addresses.
  const CMD_FT812: bv8 := 0x09
  const CMD_FT812_DATA: bv8 := 0x0A
  const ADDR_EXCLUSIVE: bv8 := 0x00
  const ADDR_CMD_BYTE1: bv8 := 0x01
  const ADDR_CMD_BYTE2: bv8 := 0x02
  const ADDR_CMD_BYTE3: bv8 := 0x03
  const ADDR_TRANSACTION_LEN: bv8 := 0x04
  const ADDR_ADDRESS_BYTE1: bv8 := 0x05
  const ADDR_ADDRESS_BYTE2: bv8 := 0x06
  const ADDR_ADDRESS_BYTE3: bv8 := 0x07
  const ADDR_ADDRESS_BYTE4: bv8 := 0x08

  // FT81x memory map.
  const RAM_G: bv32 := 0x000000
  const RAM_CMD: bv32 := 0x308000
  const REG_HCYCLE: bv32 := 0x30202C
  const REG_HOFFSET: bv32 := 0x302030
  const REG_HSIZE: bv32 := 0x302034
  const REG_HSYNC0: bv32 := 0x302038
  const REG_HSYNC1: bv32 := 0x30203C
  const REG_VCYCLE: bv32 := 0x302040
  const REG_VOFFSET: bv32 := 0x302044
  const REG_VSIZE: bv32 := 0x302048
  const REG_VSYNC0: bv32 := 0x30204C
  const REG_VSYNC1: bv32 := 0x302050
  const REG_CMD_WRITE: bv32 := 0x3020FC

  // ---------------------------------------------------------------------
  // Byte encodings
  // ---------------------------------------------------------------------

  /** The low byte of a word, as a `(uint8_t)` cast keeps it. */
  function Lo(x: bv32): bv8
  {
    (x & 0xFF) as bv8
  }

  /** Little-endian bytes of a 16-bit value (`write16`). */
  function Le16(v: bv16): (b: seq<bv8>)
    ensures |b| == 2
  {
    [(v & 0x00FF) as bv8, (v >> 8) as bv8]
  }

  /** The value `read16` assembles from two bytes. */
  function FromLe16(b0: bv8, b1: bv8): bv16
  {
    (b0 as bv16) | ((b1 as bv16) << 8)
  }

  lemma Le16RoundTrip(v: bv16, b0: bv8, b1: bv8)
    ensures FromLe16(Le16(v)[0], Le16(v)[1]) == v
    ensures Le16(FromLe16(b0, b1)) == [b0, b1]
  {
  }

  /** Little-endian bytes of a 32-bit value (`write32`, and the command words). */
  function Le32(v: bv32): (b: seq<bv8>)
    ensures |b| == 4
  {
    [Lo(v), Lo(v >> 8), Lo(v >> 16), Lo(v >> 24)]
  }

  /** The value `read32` assembles from four bytes. */
  function FromLe32(b0: bv8, b1: bv8, b2: bv8, b3: bv8): bv32
  {
    (b0 as bv32) | ((b1 as bv32) << 8) | ((b2 as bv32) << 16) | ((b3 as bv32) << 24)
  }

  lemma Le32RoundTrip(v: bv32, b0: bv8, b1: bv8, b2: bv8, b3: bv8)
    ensures FromLe32(Le32(v)[0], Le32(v)[1], Le32(v)[2], Le32(v)[3]) == v
    ensures Le32(FromLe32(b0, b1, b2, b3)) == [b0, b1, b2, b3]
  {
  }

  lemma Mod256Add(a: nat, b: nat)
    ensures (a % 256 + b) % 256 == (a + b) % 256
  {
  }

  lemma Mod256Small(a: nat)
    requires a < 256
    ensures a % 256 == a
  {
  }

  lemma Mod4096Add(a: nat, b: nat)
    ensures (a % 4096 + b) % 4096 == (a + b) % 4096
  {
  }

  // ---------------------------------------------------------------------
  // Transaction framing
  // ---------------------------------------------------------------------

  /**
   * Address bits 16..23 as sent in the first address byte: bit 7 set and
   * bit 6 cleared for a write ("10"), both cleared for a read ("00"), so
   * only the 22-bit FT81x address survives.
   */
  function AddressTag(addr: bv32, write: bool): bv8
  {
    var a3 := Lo((addr & 0x00FF0000) >> 16);
    if write then (a3 | 0x80) & 0xBF else (a3 & 0x7F) & 0xBF
  }

  /** The tag keeps address bits 16..21 and puts the direction in the top two bits. */
  lemma AddressTagBits(addr: bv32, write: bool)
    ensures AddressTag(addr, write) & 0x3F == Lo(addr >> 16) & 0x3F
    ensures AddressTag(addr, write) & 0xC0 == if write then 0x80 else 0x00
  {
  }

  /** Transaction length, then the three address bytes. */
  function Header(addr: bv32, len: bv8, write: bool): (r: seq<SpiFrame>)
    ensures |r| == 4
  {
    [ SpiFrame(CMD_FT812, ADDR_TRANSACTION_LEN, len),
      SpiFrame(CMD_FT812, ADDR_ADDRESS_BYTE1, AddressTag(addr, write)),
      SpiFrame(CMD_FT812, ADDR_ADDRESS_BYTE2, Lo((addr & 0x0000FF00) >> 8)),
      SpiFrame(CMD_FT812, ADDR_ADDRESS_BYTE3, Lo(addr & 0x000000FF)) ]
  }

  /** The data phase: byte `i` goes to data register `i`. */
  function DataFrames(data: seq<bv8>): (r: seq<SpiFrame>)
    requires |data| < 256
    ensures |r| == |data|
  {
    seq(|data|, i requires 0 <= i < |data| => SpiFrame(CMD_FT812_DATA, Byte(i), data[i]))
  }

  lemma DataFramesSnoc(data: seq<bv8>, i: nat)
    requires i < |data| < 256
    ensures DataFrames(data[..i + 1]) == DataFrames(data[..i]) + [SpiFrame(CMD_FT812_DATA, Byte(i), data[i])]
  {
  }

  /** Everything `write(addr, data, len)` sends. */
  function WriteFrames(addr: bv32, data: seq<bv8>): seq<SpiFrame>
    requires |data| < 256
  {
    Header(addr, Byte(|data|), true) + DataFrames(data)
  }

  /** Everything `read(addr, len)` sends: a dummy address byte, then `len` dummy data bytes. */
  function ReadFrames(addr: bv32, len: nat): seq<SpiFrame>
    requires len < 256
  {
    Header(addr, Byte(len), false) + [SpiFrame(CMD_FT812, ADDR_ADDRESS_BYTE4, 0)]
      + DataFrames(Repeat(0, len))
  }

  /**
   * What `cmd(c)` adds to the link log when the chip reports `w` as its
   * FIFO write offset: the read of REG_CMD_WRITE, the word written at that
   * FIFO slot, and the offset advanced by 4 (modulo 4096) written back.
   */
  function CmdLog(log: seq<SpiFrame>, w: bv16, c: bv32): seq<SpiFrame>
  {
    log + ReadFrames(REG_CMD_WRITE, 2) + WriteFrames(RAM_CMD + w as bv32, Le32(c))
      + WriteFrames(REG_CMD_WRITE, Le16((w + 4) % 4096))
  }

  /**
   * What closing a batch of command words adds to the link log: the batch
   * written at its FIFO address, then the new FIFO write offset written to
   * REG_CMD_WRITE.
   */
  function BatchLog(log: seq<SpiFrame>, addr: bv32, words: seq<bv8>, fifo: nat): seq<SpiFrame>
    requires |words| < 256 && fifo < 0x10000
  {
    log + WriteFrames(addr, words) + WriteFrames(REG_CMD_WRITE, Le16(Half(fifo)))
  }

  /** One FT81x memory transfer as the FPGA sees it. */
  datatype Transfer = Transfer(write: bool, address: bv32, payload: seq<bv8>)

  /** The header the FPGA reads: direction, 22-bit address and length. */
  function ParseHeader(len: SpiFrame, hi: SpiFrame, mid: SpiFrame, low: SpiFrame): Option<(bool, bv32, bv8)>
  {
    if len.cmd != CMD_FT812 || len.addr != ADDR_TRANSACTION_LEN
      || hi.cmd != CMD_FT812 || hi.addr != ADDR_ADDRESS_BYTE1
      || mid.cmd != CMD_FT812 || mid.addr != ADDR_ADDRESS_BYTE2
      || low.cmd != CMD_FT812 || low.addr != ADDR_ADDRESS_BYTE3
      || (hi.data & 0xC0 != 0x80 && hi.data & 0xC0 != 0x00)
    then None
    else
      var address := ((hi.data & 0x3F) as bv32 << 16) | ((mid.data as bv32) << 8) | (low.data as bv32);
      Some((hi.data & 0xC0 == 0x80, address, len.data))
  }

  /** The data bytes of a data phase, if it is well formed. */
  function DataPhase(frames: seq<SpiFrame>): (r: Option<seq<bv8>>)
    ensures r.Some? ==> |r.value| == |frames| < 256
  {
    if |frames| < 256
      && forall i :: 0 <= i < |frames| ==> frames[i].cmd == CMD_FT812_DATA && frames[i].addr == Byte(i)
    then Some(seq(|frames|, i requires 0 <= i < |frames| => frames[i].data))
    else None
  }

  /**
   * The receiving end of the framing: how the FPGA turns a message series
   * back into a transfer. It is the partner definition the framing
   * functions are checked against.
   */
  function ParseTransfer(frames: seq<SpiFrame>): Option<Transfer>
  {
    if |frames| < 4 then None
    else match ParseHeader(frames[0], frames[1], frames[2], frames[3])
      case None => None
      case Some(h) =>
        var body :=
          if h.0 then Some(frames[4..])
          else if |frames| > 4 && frames[4] == SpiFrame(CMD_FT812, ADDR_ADDRESS_BYTE4, 0) then Some(frames[5..])
          else None;
        if body.None? then None
        else match DataPhase(body.value)
          case None => None
          case Some(payload) =>
            if Byte(|payload|) == h.2 then Some(Transfer(h.0, h.1, payload)) else None
  }

  lemma HeaderParse(addr: bv32, len: bv8, write: bool)
    ensures var h := Header(addr, len, write);
            ParseHeader(h[0], h[1], h[2], h[3]) == Some((write, addr & 0x3FFFFF, len))
  {
  }

  lemma DataPhaseOfDataFrames(data: seq<bv8>)
    requires |data| < 256
    ensures DataPhase(DataFrames(data)) == Some(data)
  {
    var f := DataFrames(data);
    assert forall i :: 0 <= i < |f| ==> f[i].cmd == CMD_FT812_DATA && f[i].addr == Byte(i);
    assert seq(|f|, i requires 0 <= i < |f| => f[i].data) == data;
  }

  /** How a write transaction is recognised: a write header followed by its data phase. */
  lemma ParseWrite(frames: seq<SpiFrame>, a: bv32, payload: seq<bv8>)
    requires |payload| < 256 && |frames| >= 4
    requires ParseHeader(frames[0], frames[1], frames[2], frames[3]) == Some((true, a, Byte(|payload|)))
    requires DataPhase(frames[4..]) == Some(payload)
    ensures ParseTransfer(frames) == Some(Transfer(true, a, payload))
  {
  }

  /** How a read transaction is recognised: a read header, the dummy byte, then its data phase. */
  lemma ParseRead(frames: seq<SpiFrame>, a: bv32, payload: seq<bv8>)
    requires |payload| < 256 && |frames| >= 5 && frames[4] == SpiFrame(CMD_FT812, ADDR_ADDRESS_BYTE4, 0)
    requires ParseHeader(frames[0], frames[1], frames[2], frames[3]) == Some((false, a, Byte(|payload|)))
    requires DataPhase(frames[5..]) == Some(payload)
    ensures ParseTransfer(frames) == Some(Transfer(false, a, payload))
  {
  }

  /**
   * `write` tags the address as a write, keeps its low 22 bits, and
   * carries exactly the data bytes, in order.
   */
  lemma WriteFramesParse(addr: bv32, data: seq<bv8>)
    requires |data| < 256
    ensures ParseTransfer(WriteFrames(addr, data)) == Some(Transfer(true, addr & 0x3FFFFF, data))
  {
    var f := WriteFrames(addr, data);
    var h := Header(addr, Byte(|data|), true);
    assert f[0] == h[0] && f[1] == h[1] && f[2] == h[2] && f[3] == h[3];
    HeaderParse(addr, Byte(|data|), true);
    assert f[4..] == DataFrames(data);
    DataPhaseOfDataFrames(data);
    ParseWrite(f, addr & 0x3FFFFF, data);
  }

  /**
   * `read` tags the address as a read, sends the dummy address byte and
   * exactly `len` zero dummy bytes.
   */
  lemma ReadFramesParse(addr: bv32, len: nat)
    requires len < 256
    ensures ParseTransfer(ReadFrames(addr, len)) == Some(Transfer(false, addr & 0x3FFFFF, Repeat(0, len)))
  {
    var f := ReadFrames(addr, len);
    var h := Header(addr, Byte(len), false);
    var zeros := Repeat(0, len);
    assert f == h + ([SpiFrame(CMD_FT812, ADDR_ADDRESS_BYTE4, 0)] + DataFrames(zeros));
    assert f[0] == h[0] && f[1] == h[1] && f[2] == h[2] && f[3] == h[3];
    HeaderParse(addr, Byte(len), false);
    assert f[5..] == DataFrames(zeros);
    DataPhaseOfDataFrames(zeros);
    ParseRead(f, addr & 0x3FFFFF, zeros);
  }

  /** A sequence of memory writes, one transaction after the other. */
  function WritesFrames(writes: seq<(bv32, seq<bv8>)>): seq<SpiFrame>
    requires forall k :: 0 <= k < |writes| ==> |writes[k].1| < 256
  {
    if writes == [] then [] else WriteFrames(writes[0].0, writes[0].1) + WritesFrames(writes[1..])
  }

  // ---------------------------------------------------------------------
  // Reply bytes and the command buffer
  // ---------------------------------------------------------------------

  /**
   * `buf` after the reply bytes of a read have been stored: reply byte
   * `p` lands in slot `p - header` once the header bytes are skipped.
   */
  function Overlay(b: seq<bv8>, reply: seq<bv8>, header: nat): (r: seq<bv8>)
    ensures |r| == |b|
  {
    seq(|b|, k requires 0 <= k < |b| => if k + header < |reply| then reply[k + header] else b[k])
  }

  lemma OverlayStep(b: seq<bv8>, reply: seq<bv8>, i: nat, header: nat)
    requires i < |reply| && i < |b| + header
    ensures Overlay(b, reply[..i + 1], header)
         == if i >= header then Overlay(b, reply[..i], header)[i - header := reply[i]]
            else Overlay(b, reply[..i], header)
  {
  }

  /**
   * `buf` after storing `bytes` from slot `at` on, with the slot index
   * advancing as the 8-bit `transaction_len` does, wrapping at 256.
   */
  function PutBytes(b: seq<bv8>, at: nat, bytes: seq<bv8>): (r: seq<bv8>)
    requires |b| == 256 && at < 256
    ensures |r| == 256
    decreases |bytes|
  {
    if bytes == [] then b else PutBytes(b[at := bytes[0]], (at + 1) % 256, bytes[1..])
  }

  /** Four single steps around the 256-slot buffer are one step of four. */
  lemma NextFour(at: nat)
    requires at < 256
    ensures (((at + 1) % 256 + 1) % 256 + 1) % 256 == (at + 3) % 256
    ensures ((((at + 1) % 256 + 1) % 256 + 1) % 256 + 1) % 256 == (at + 4) % 256
  {
  }

  /** Four bytes put one after the other, each at the slot after the previous one. */
  lemma PutFour(b: seq<bv8>, at: nat, l: seq<bv8>)
    requires |b| == 256 && at < 256 && |l| == 4
    ensures var a1 := (at + 1) % 256; var a2 := (a1 + 1) % 256; var a3 := (a2 + 1) % 256;
            PutBytes(b, at, l) == b[at := l[0]][a1 := l[1]][a2 := l[2]][a3 := l[3]]
  {
    var a1 := (at + 1) % 256;
    var a2 := (a1 + 1) % 256;
    var a3 := (a2 + 1) % 256;
    var b1 := b[at := l[0]];
    var b2 := b1[a1 := l[1]];
    var b3 := b2[a2 := l[2]];
    var b4 := b3[a3 := l[3]];
    assert PutBytes(b3, a3, l[3..]) == PutBytes(b4, (a3 + 1) % 256, []);
    assert PutBytes(b2, a2, l[2..]) == PutBytes(b3, a3, l[3..]);
    assert PutBytes(b1, a1, l[1..]) == PutBytes(b2, a2, l[2..]);
  }

  /** Storing two byte runs one after the other is storing their concatenation. */
  lemma {:induction false} PutBytesAppend(b: seq<bv8>, at: nat, x: seq<bv8>, y: seq<bv8>)
    requires |b| == 256 && at < 256
    ensures PutBytes(b, at, x + y) == PutBytes(PutBytes(b, at, x), (at + |x|) % 256, y)
    decreases |x|
  {
    if x == [] {
      assert x + y == y;
    } else {
      assert (x + y)[1..] == x[1..] + y;
      PutBytesAppend(b[at := x[0]], (at + 1) % 256, x[1..], y);
      Mod256Add(at + 1, |x[1..]|);
    }
  }

  /**
   * As long as the 256-byte buffer does not wrap, storing `x` from slot
   * `at` leaves the bytes before it and after it alone and `x` in between.
   */
  lemma {:induction false} PutBytesNoWrap(b: seq<bv8>, at: nat, x: seq<bv8>)
    requires |b| == 256 && at < 256 && at + |x| <= 256
    ensures PutBytes(b, at, x)[..at + |x|] == b[..at] + x
    ensures PutBytes(b, at, x)[at + |x|..] == b[at + |x|..]
    decreases |x|
  {
    if x != [] {
      var b' := b[at := x[0]];
      if at + 1 < 256 {
        PutBytesNoWrap(b', at + 1, x[1..]);
        assert b'[..at + 1] == b[..at] + [x[0]];
        assert b[..at] + x == b[..at] + [x[0]] + x[1..];
      } else {
        assert x[1..] == [];
        assert PutBytes(b', 0, []) == b';
      }
    }
  }

  /** The bytes `sendText` stores for a string: the string, then 1 to 4 NULs up to a word boundary. */
  function TextBytes(text: seq<bv8>): (r: seq<bv8>)
    ensures |r| % 4 == 0 && |text| < |r| <= |text| + 4
    ensures r[..|text|] == text
    ensures forall k :: |text| <= k < |r| ==> r[k] == 0
  {
    text + Repeat(0, 4 - |text| % 4)
  }

  /** `text[k]` of the NUL-terminated array holding `text`. */
  function CharAt(text: seq<bv8>, k: nat): bv8
    requires k <= |text|
  {
    if k < |text| then text[k] else 0
  }

  /**
   * `sendText` ORs each character into the word at its byte position; with
   * the higher bytes still clear, each step leaves the little-endian word of
   * the characters read so far.
   */
  lemma OrFirstByte(b0: bv8)
    ensures FromLe32(b0, 0, 0, 0) == 0 | b0 as bv32
  {
  }

  lemma OrSecondByte(b0: bv8, b1: bv8)
    ensures FromLe32(b0, b1, 0, 0) == FromLe32(b0, 0, 0, 0) | (b1 as bv32 << 8)
  {
  }

  lemma OrThirdByte(b0: bv8, b1: bv8, b2: bv8)
    ensures FromLe32(b0, b1, b2, 0) == FromLe32(b0, b1, 0, 0) | (b2 as bv32 << 16)
  {
  }

  lemma OrFourthByte(b0: bv8, b1: bv8, b2: bv8, b3: bv8)
    ensures FromLe32(b0, b1, b2, b3) == FromLe32(b0, b1, b2, 0) | (b3 as bv32 << 24)
  {
  }

  /** The top byte of a word is its last little-endian byte. */
  lemma TopByte(v: bv32)
    ensures (v >> 24 != 0) == (Le32(v)[3] != 0)
  {
  }

  /**
   * The four bytes of the NUL-padded text at a word offset inside the
   * text: text bytes, then NULs; the word is the last one exactly when it
   * reaches past the last character.
   */
  lemma TextWindow(text: seq<bv8>, i: nat)
    requires i % 4 == 0 && i <= |text|
    requires forall k :: 0 <= k < |text| ==> text[k] != 0
    ensures i + 4 <= |TextBytes(text)|
    ensures forall k :: i <= k < i + 4 ==> TextBytes(text)[k] == if k < |text| then text[k] else 0
    ensures (TextBytes(text)[i + 3] != 0) == (i + 3 < |text|)
    ensures i + 3 >= |text| ==> i + 4 == |TextBytes(text)|
  {
    var t := TextBytes(text);
    assert i <= |text| - |text| % 4;
    forall k | i <= k < i + 4
      ensures t[k] == if k < |text| then text[k] else 0
    {
      if k < |text| {
        assert t[..|text|][k] == text[k];
      }
    }
  }

  /** Text bytes are stored word after word. */
  lemma TextStep(b0: seq<bv8>, len0: nat, all: seq<bv8>, i: nat)
    requires |b0| == 256 && len0 < 256 && i + 4 <= |all|
    ensures PutBytes(PutBytes(b0, len0, all[..i]), (len0 + i) % 256, all[i..i + 4]) == PutBytes(b0, len0, all[..i + 4])
  {
    PutBytesAppend(b0, len0, all[..i], all[i..i + 4]);
    assert all[..i] + all[i..i + 4] == all[..i + 4];
  }

  // ---------------------------------------------------------------------
  // Video modes
  // ---------------------------------------------------------------------

  /** One entry of the video mode table (pixel clock and timings in pixels / lines). */
  datatype Mode = Mode(fMul: nat, fDiv: nat,
                       hFporch: nat, hSync: nat, hBporch: nat, hVisible: nat,
                       vFporch: nat, vSync: nat, vBporch: nat, vVisible: nat)

  const Modes: seq<Mode> := [
    Mode(6, 2, 16, 96, 48, 640, 11, 2, 31, 480),
    Mode(8, 2, 24, 40, 128, 640, 9, 3, 28, 480),
    Mode(8, 2, 16, 96, 48, 640, 11, 2, 31, 480),
    Mode(5, 1, 40, 128, 88, 800, 1, 4, 23, 600),
    Mode(10, 2, 40, 128, 88, 800, 1, 4, 23, 600),
    Mode(6, 1, 56, 120, 64, 800, 37, 6, 23, 600),
    Mode(7, 1, 32, 64, 152, 800, 1, 3, 27, 600),
    Mode(8, 1, 24, 136, 160, 1024, 3, 6, 29, 768),
    Mode(9, 1, 24, 136, 144, 1024, 3, 6, 29, 768),
    Mode(10, 1, 16, 96, 176, 1024, 1, 3, 28, 768),
    Mode(7, 1, 24, 56, 124, 640, 1, 3, 38, 1024),
    Mode(9, 1, 110, 40, 220, 1280, 5, 5, 20, 720),
    Mode(9, 1, 93, 40, 187, 1280, 5, 5, 20, 720)
  ]

  /** An unsigned 16-bit quantity kept as an integer (C `uint16_t`). */
  type u16 = x: int | 0 <= x < 0x10000

  /** An `int` converted to `uint16_t`: its low 16 bits. */
  function U16(v: int): (r: u16)
    ensures 0 <= v < 0x10000 ==> r == v
    ensures r % 0x10000 == v % 0x10000
  {
    v % 0x10000
  }

  /** A 16-bit value as the bit pattern `write16` sends. */
  function Bits16(v: u16): bv16
  {
    Half(v)
  }

  /** The values of the ten RGB timing registers, as `write16` receives them. */
  datatype Timing = Timing(hSync0: u16, hSync1: u16, hOffset: u16, hCycle: u16, hSize: u16,
                           vSync0: u16, vSync1: u16, vOffset: u16, vCycle: u16, vSize: u16)

  /**
   * The timing register values `init` programs for a mode: the horizontal
   * ones as running sums of front porch, sync, back porch and visible
   * width; the vertical ones as the same sums minus one, except the full
   * cycle length; each cut to 16 bits.
   */
  function TimingOf(m: Mode): Timing
  {
    Timing(U16(m.hFporch),
           U16(m.hFporch + m.hSync),
           U16(m.hFporch + m.hSync + m.hBporch),
           U16(m.hFporch + m.hSync + m.hBporch + m.hVisible),
           U16(m.hVisible),
           U16(m.vFporch - 1),
           U16(m.vFporch + m.vSync - 1),
           U16(m.vFporch + m.vSync + m.vBporch - 1),
           U16(m.vFporch + m.vSync + m.vBporch + m.vVisible),
           U16(m.vVisible))
  }

  /** No timing sum of the mode overflows 16 bits or goes below zero. */
  ghost predicate TimingFits(m: Mode)
  {
    m.vFporch >= 1
    && m.hFporch + m.hSync + m.hBporch + m.hVisible < 0x10000
    && m.vFporch + m.vSync + m.vBporch + m.vVisible < 0x10000
  }

  /**
   * For a mode whose sums fit, the registers read back the mode: the sync
   * pulse widths, the back porches and the visible area are the
   * differences of consecutive registers, as the FT81x datasheet defines
   * them.
   */
  lemma {:induction false} TimingOfFits(m: Mode)
    requires TimingFits(m)
    ensures var t := TimingOf(m);
            && t.hSync0 == m.hFporch && t.vSync0 == m.vFporch - 1
            && t.hSync1 - t.hSync0 == m.hSync && t.vSync1 - t.vSync0 == m.vSync
            && t.hOffset - t.hSync1 == m.hBporch && t.vOffset - t.vSync1 == m.vBporch
            && t.hCycle - t.hOffset == t.hSize == m.hVisible
            && t.vCycle - t.vOffset - 1 == t.vSize == m.vVisible
  {
    var t := TimingOf(m);
    assert t.hSync0 == m.hFporch;
    assert t.hSync1 == m.hFporch + m.hSync;
    assert t.hOffset == m.hFporch + m.hSync + m.hBporch;
    assert t.hCycle == m.hFporch + m.hSync + m.hBporch + m.hVisible;
    assert t.hSize == m.hVisible;
    assert t.vSync0 == m.vFporch - 1;
    assert t.vSync1 == m.vFporch + m.vSync - 1;
    assert t.vOffset == m.vFporch + m.vSync + m.vBporch - 1;
    assert t.vCycle == m.vFporch + m.vSync + m.vBporch + m.vVisible;
    assert t.vSize == m.vVisible;
  }

  /** Every table mode can be programmed without a value wrapping. */
  lemma {:induction false} ModeTimingFits(i: nat)
    requires i < |Modes|
    ensures TimingFits(Modes[i])
  {
    assert i == 0 || i == 1 || i == 2 || i == 3 || i == 4 || i == 5 || i == 6
        || i == 7 || i == 8 || i == 9 || i == 10 || i == 11 || i == 12;
  }

  /**
   * A link log followed by the messages `init` sends to program the
   * timings, register by register.
   */
  function TimingLog(log: seq<SpiFrame>, t: Timing): seq<SpiFrame>
  {
    log
      + WriteFrames(REG_HSYNC0, Le16(Bits16(t.hSync0))) + WriteFrames(REG_HSYNC1, Le16(Bits16(t.hSync1)))
      + WriteFrames(REG_HOFFSET, Le16(Bits16(t.hOffset))) + WriteFrames(REG_HCYCLE, Le16(Bits16(t.hCycle)))
      + WriteFrames(REG_HSIZE, Le16(Bits16(t.hSize)))
      + WriteFrames(REG_VSYNC0, Le16(Bits16(t.vSync0))) + WriteFrames(REG_VSYNC1, Le16(Bits16(t.vSync1)))
      + WriteFrames(REG_VOFFSET, Le16(Bits16(t.vOffset))) + WriteFrames(REG_VCYCLE, Le16(Bits16(t.vCycle)))
      + WriteFrames(REG_VSIZE, Le16(Bits16(t.vSize)))
  }

  /** The font handle `initBitmapHandleForFont` returns: ROM fonts above 31 share handle 14. */
  function FontHandle(font: bv8): (h: bv8)
    ensures h < 32
    ensures font <= 31 ==> h == font
  {
    if font > 31 then 14 else font
  }

  // ---------------------------------------------------------------------
  // GRAM upload
  // ---------------------------------------------------------------------

  /** The chunks `writeGRAM` writes: 128 bytes each, the last one holding the rest. */
  function GramChunks(addr: bv32, data: seq<bv8>): (c: seq<(bv32, seq<bv8>)>)
    ensures forall k :: 0 <= k < |c| ==> 0 < |c[k].1| <= 128
    decreases |data|
  {
    if data == [] then []
    else
      var n := if |data| < 128 then |data| else 128;
      [(addr, data[..n])] + GramChunks(addr + 128, data[n..])
  }

  function Flatten(c: seq<(bv32, seq<bv8>)>): seq<bv8>
  {
    if c == [] then [] else c[0].1 + Flatten(c[1..])
  }

  /** `writeGRAM` issues ceil(size / 128) writes; none for an empty upload. */
  lemma {:induction false} GramChunksCount(addr: bv32, data: seq<bv8>)
    ensures |GramChunks(addr, data)| == (|data| + 127) / 128
    decreases |data|
  {
    if data != [] {
      var n := if |data| < 128 then |data| else 128;
      GramChunksCount(addr + 128, data[n..]);
    }
  }

  /** Together the chunks carry exactly the data, in order. */
  lemma {:induction false} GramChunksFlatten(addr: bv32, data: seq<bv8>)
    ensures Flatten(GramChunks(addr, data)) == data
    decreases |data|
  {
    if data != [] {
      var n := if |data| < 128 then |data| else 128;
      GramChunksFlatten(addr + 128, data[n..]);
      assert GramChunks(addr, data)[1..] == GramChunks(addr + 128, data[n..]);
      assert data == data[..n] + data[n..];
    }
  }

  /**
   * The first chunk goes to the start address and each next one 128 bytes
   * further; every chunk but the last is full.
   */
  lemma {:induction false} GramChunksLayout(addr: bv32, data: seq<bv8>)
    ensures var c := GramChunks(addr, data);
            && (|c| > 0 ==> c[0].0 == addr)
            && (forall k :: 0 <= k < |c| - 1 ==> c[k + 1].0 == c[k].0 + 128 && |c[k].1| == 128)
    decreases |data|
  {
    if data != [] {
      var n := if |data| < 128 then |data| else 128;
      var c := GramChunks(addr, data);
      var rest := GramChunks(addr + 128, data[n..]);
      GramChunksLayout(addr + 128, data[n..]);
      assert c[1..] == rest;
      forall k | 0 <= k < |c| - 1
        ensures c[k + 1].0 == c[k].0 + 128 && |c[k].1| == 128
      {
        if k > 0 {
          assert c[k] == rest[k - 1] && c[k + 1] == rest[k];
        } else {
          assert rest != [];
        }
      }
    }
  }

  function GramFrames(addr: bv32, data: seq<bv8>): seq<SpiFrame>
  {
    WritesFrames(GramChunks(addr, data))
  }

  /** A link log followed by the upload of `data`, chunk after chunk. */
  function GramLog(log: seq<SpiFrame>, addr: bv32, data: seq<bv8>): seq<SpiFrame>
    decreases |data|
  {
    if data == [] then log
    else
      var n := if |data| < 128 then |data| else 128;
      GramLog(log + WriteFrames(addr, data[..n]), addr + 128, data[n..])
  }

  /** One step of `GramLog`: the first chunk written, the rest still to go. */
  lemma GramLogStep(log: seq<SpiFrame>, addr: bv32, data: seq<bv8>, n: nat)
    requires data != [] && n == if |data| < 128 then |data| else 128
    ensures GramLog(log, addr, data) == GramLog(log + WriteFrames(addr, data[..n]), addr + 128, data[n..])
  {
  }

  /** Logging the chunks one write at a time logs the frames of all the chunks. */
  lemma {:induction false} GramLogFrames(log: seq<SpiFrame>, addr: bv32, data: seq<bv8>)
    ensures GramLog(log, addr, data) == log + GramFrames(addr, data)
    decreases |data|
  {
    if data != [] {
      var n := if |data| < 128 then |data| else 128;
      var w := WriteFrames(addr, data[..n]);
      var c := GramChunks(addr, data);
      GramLogFrames(log + w, addr + 128, data[n..]);
      assert c[1..] == GramChunks(addr + 128, data[n..]);
      assert GramFrames(addr, data) == w + GramFrames(addr + 128, data[n..]);
      assert log + w + GramFrames(addr + 128, data[n..]) == log + (w + GramFrames(addr + 128, data[n..]));
    }
  }

  /** The number of 128-byte chunks of `n` bytes, as `ceil(size / 128.0)` computes it. */
  lemma ChunkCount(n: nat, j: nat)
    requires j < (n + 127) / 128
    ensures var tail := n - j * 128;
            var to := if j == (n + 127) / 128 - 1 then tail else 128;
            && 0 < to && j * 128 + to <= n
            && to == (if tail < 128 then tail else 128)
            && (j + 1 < (n + 127) / 128 ==> j * 128 + to == (j + 1) * 128 < n)
            && (j + 1 == (n + 127) / 128 ==> j * 128 + to == n)
  {
  }

  // ---------------------------------------------------------------------
  // Display list encodings
  // ---------------------------------------------------------------------

  function Clear(c: bv32, s: bv32, t: bv32): (w: bv32)
    requires c < 2 && s < 2 && t < 2
    ensures w >> 24 == 0x26 && w & 4 == c << 2 && w & 2 == s << 1 && w & 1 == t
  {
    0x2600_0000 | (c << 2) | (s << 1) | t
  }

  function ClearColorRgb(r: bv32, g: bv32, b: bv32): (w: bv32)
    requires r < 256 && g < 256 && b < 256
    ensures w >> 24 == 0x02
    ensures (w >> 16) & 0xFF == r && (w >> 8) & 0xFF == g && w & 0xFF == b
  {
    0x0200_0000 | (r << 16) | (g << 8) | b
  }

  function ClearColor(rgb: bv32): (w: bv32)
    ensures w >> 24 == 0x02 && w & 0xFFFFFF == rgb & 0xFFFFFF
  {
    0x0200_0000 | (rgb & 0xFFFFFF)
  }

  function Color(rgb: bv32): (w: bv32)
    ensures w >> 24 == 0x04 && w & 0xFFFFFF == rgb & 0xFFFFFF
  {
    0x0400_0000 | (rgb & 0xFFFFFF)
  }

  function PointSize(s: bv32): (w: bv32)
    ensures w >> 24 == 0x0D && w & 0xFFFFFF == s & 0xFFF
  {
    0x0D00_0000 | (s & 0xFFF)
  }

  function LineWidth(lw: bv32): (w: bv32)
    ensures w >> 24 == 0x0E && w & 0xFFFFFF == lw & 0xFFF
  {
    0x0E00_0000 | (lw & 0xFFF)
  }

  function Begin(p: bv32): (w: bv32)
    requires p < 0x100_0000
    ensures w >> 24 == 0x1F && w & 0xFFFFFF == p
  {
    0x1F00_0000 | p
  }

  const End: bv32 := 0x2100_0000

  /**
   * VERTEX2II: opcode "10", then x (9 bits), y (9 bits), handle (5 bits)
   * and cell (7 bits), for coordinates inside the 0..511 range the
   * instruction supports.
   */
  function Vertex2ii(x: bv32, y: bv32, h: bv32, c: bv32): (w: bv32)
    requires x < 512 && y < 512 && h < 32 && c < 128
    ensures w >> 30 == 2
    ensures (w >> 21) & 0x1FF == x && (w >> 12) & 0x1FF == y
    ensures (w >> 7) & 0x1F == h && w & 0x7F == c
  {
    0x8000_0000 | ((x & 0xFFF) << 21) | ((y & 0xFFF) << 12) | (h << 7) | c
  }

  /**
   * VERTEX2F as the driver writes it: both coordinates masked to 16 bits
   * although the instruction's fields are 15 bits wide.
   */
  function Vertex2fAsWritten(x: bv32, y: bv32): bv32
  {
    0x4000_0000 | ((x & 0xFFFF) << 15) | (y & 0xFFFF)
  }

  /** With y = -1 the sign bit of y spills into the x field: x = 0 reads back as 1. */
  lemma Vertex2fAsWrittenCorruptsX()
    ensures (Vertex2fAsWritten(0, 0xFFFF_FFFF) >> 15) & 0x7FFF == 1
  {
  }

  /**
   * VERTEX2F with 15-bit fields: opcode "01", x in bits 15..29 and y in
   * bits 0..14, each the 15-bit two's complement of the coordinate.
   */
  function Vertex2f(x: bv32, y: bv32): bv32
  {
    0x4000_0000 | ((x & 0x7FFF) << 15) | (y & 0x7FFF)
  }

  /** Each field of VERTEX2F holds its own coordinate, whatever the other one is. */
  lemma Vertex2fFields(x: bv32, y: bv32)
    ensures Vertex2f(x, y) >> 30 == 1
    ensures (Vertex2f(x, y) >> 15) & 0x7FFF == x & 0x7FFF
    ensures Vertex2f(x, y) & 0x7FFF == y & 0x7FFF
  {
  }

  function BitmapSource(a: bv32): (w: bv32)
    requires a < 0x100_0000
    ensures w >> 24 == 0x01 && w & 0xFFFFFF == a
  {
    0x0100_0000 | a
  }

  function BitmapLayout(f: bv32, s: bv32, h: bv32): (w: bv32)
    requires f < 32
    ensures w >> 24 == 0x07 && (w >> 19) & 0x1F == f
    ensures (w >> 9) & 0x3FF == s & 0x1FF && w & 0x1FF == h & 0x1FF
  {
    0x0700_0000 | (f << 19) | ((s & 0x1FF) << 9) | (h & 0x1FF)
  }

  function BitmapSize(f: bv32, wx: bv32, wy: bv32, width: bv32, height: bv32): (w: bv32)
    ensures w >> 24 == 0x08 && (w >> 21) & 7 == 0
    ensures (w >> 20) & 1 == f & 1 && (w >> 19) & 1 == wx & 1 && (w >> 18) & 1 == wy & 1
    ensures (w >> 9) & 0x1FF == width & 0x1FF && w & 0x1FF == height & 0x1FF
  {
    0x0800_0000 | ((f & 1) << 20) | ((wx & 1) << 19) | ((wy & 1) << 18) | ((width & 0x1FF) << 9) | (height & 0x1FF)
  }

  function BlendFunc(src: bv32, dst: bv32): (w: bv32)
    requires src < 8 && dst < 8
    ensures w >> 24 == 0x0B && (w >> 3) & 7 == src && w & 7 == dst
  {
    0x0B00_0000 | (src << 3) | dst
  }

  const RomFont: bv32 := 0xFFFFFF3F

  // ---------------------------------------------------------------------
  // The driver object
  // ---------------------------------------------------------------------

  class Ft812 {
    /** Reply bytes of reads, and the command words being collected. */
    var buf: array<bv8>
    /** The 8-bit `transaction_len`. */
    var transactionLen: nat
    var transactionActive: bool
    var dataTransaction: bool
    var isWrite: bool
    /** Offset of the next free slot in the 4096-byte command FIFO. */
    var cmdWriteAddress: nat
    /** FIFO address at which the pending command words go. */
    var cmdAddr: bv32
    var mode: Mode
    var ctrlReg: bv8
    /** Every message sent to the FPGA so far. */
    var sent: seq<SpiFrame>

    ghost predicate Valid()
      reads this
    {
      buf.Length == 256 && transactionLen < 256
      && cmdWriteAddress < 4096 && cmdWriteAddress % 4 == 0
    }

    /** The transaction bookkeeping `setData` consults. */
    function Link(): (bool, bool, bool, nat)
      reads this
    {
      (transactionActive, dataTransaction, isWrite, transactionLen)
    }

    /** Where command words go. */
    function Fifo(): (nat, bv32)
      reads this
    {
      (cmdWriteAddress, cmdAddr)
    }

    /** Buffer identity, video mode and control register. */
    function Setup(): (array<bv8>, Mode, bv8)
      reads this
    {
      (buf, mode, ctrlReg)
    }

    /** The command bytes collected since `startCmd`. */
    function Pending(): seq<bv8>
      requires Valid()
      reads this, buf
    {
      buf[..transactionLen]
    }

    /** Bytes of a reply that precede the data: 4 for a data read, otherwise 3. */
    function HeaderLength(): (n: nat)
      reads this
      ensures n == 3 || n == 4
    {
      if dataTransaction then (if isWrite then 3 else 4) else 3
    }

    /** Bytes of a full reply, kept in 8 bits as `count_bytes` is. */
    function ReplyLength(): (n: nat)
      reads this
      ensures n < 256
    {
      if dataTransaction then (HeaderLength() + transactionLen) % 256 else HeaderLength()
    }

    function Width(): nat
      reads this
    {
      mode.hVisible
    }

    function Height(): nat
      reads this
    {
      mode.vVisible
    }

    constructor ()
      ensures Valid() && fresh(buf)
      ensures buf[..] == Repeat(0, 256) && sent == []
      ensures Link() == (false, false, false, 0) && Fifo() == (0, 0) && ctrlReg == 0
    {
      buf := new bv8[256](_ => 0);
      transactionLen := 0;
      transactionActive := false;
      dataTransaction := false;
      isWrite := false;
      cmdWriteAddress := 0;
      cmdAddr := 0;
      mode := Mode(0, 0, 0, 0, 0, 0, 0, 0, 0, 0);
      ctrlReg := 0;
      sent := [];
    }

    /** `spi(on)`: bit 0 of the control register, then the register itself to the FPGA. */
    method Spi(on: bool)
      modifies this
      ensures ctrlReg & 1 == (if on then 1 else 0) && ctrlReg & 0xFE == old(ctrlReg) & 0xFE
      ensures sent == old(sent) + [SpiFrame(CMD_FT812, ADDR_EXCLUSIVE, ctrlReg)]
      ensures buf == old(buf) && mode == old(mode) && Link() == old(Link()) && Fifo() == old(Fifo())
    {
      ctrlReg := if on then ctrlReg | 1 else ctrlReg & 0xFE;
      sent := sent + [SpiFrame(CMD_FT812, ADDR_EXCLUSIVE, ctrlReg)];
    }

    /** `vga(on)`: the same for bit 1. */
    method Vga(on: bool)
      modifies this
      ensures ctrlReg & 2 == (if on then 2 else 0) && ctrlReg & 0xFD == old(ctrlReg) & 0xFD
      ensures sent == old(sent) + [SpiFrame(CMD_FT812, ADDR_EXCLUSIVE, ctrlReg)]
      ensures buf == old(buf) && mode == old(mode) && Link() == old(Link()) && Fifo() == old(Fifo())
    {
      ctrlReg := if on then ctrlReg | 2 else ctrlReg & 0xFD;
      sent := sent + [SpiFrame(CMD_FT812, ADDR_EXCLUSIVE, ctrlReg)];
    }

    /** `command`: a three-byte host command, awaiting a three-byte reply. */
    method Command(cmd1: bv8, cmd2: bv8, cmd3: bv8)
      requires Valid()
      modifies this
      ensures Valid() && Setup() == old(Setup()) && Fifo() == old(Fifo())
      ensures sent == old(sent) + [SpiFrame(CMD_FT812, ADDR_CMD_BYTE1, cmd1),
                                   SpiFrame(CMD_FT812, ADDR_CMD_BYTE2, cmd2),
                                   SpiFrame(CMD_FT812, ADDR_CMD_BYTE3, cmd3)]
      ensures Link() == (true, false, true, 0) && ReplyLength() == 3
    {
      transactionActive := true;
      transactionLen := 0;
      dataTransaction := false;
      isWrite := true;
      sent := sent + [SpiFrame(CMD_FT812, ADDR_CMD_BYTE1, cmd1)];
      sent := sent + [SpiFrame(CMD_FT812, ADDR_CMD_BYTE2, cmd2)];
      sent := sent + [SpiFrame(CMD_FT812, ADDR_CMD_BYTE3, cmd3)];
    }

    /** `commandNoWait`: the same, without marking a transaction in progress. */
    method CommandNoWait(cmd1: bv8, cmd2: bv8, cmd3: bv8)
      requires Valid()
      modifies this
      ensures Valid() && Setup() == old(Setup()) && Fifo() == old(Fifo())
      ensures sent == old(sent) + [SpiFrame(CMD_FT812, ADDR_CMD_BYTE1, cmd1),
                                   SpiFrame(CMD_FT812, ADDR_CMD_BYTE2, cmd2),
                                   SpiFrame(CMD_FT812, ADDR_CMD_BYTE3, cmd3)]
      ensures Link() == (false, false, true, 0)
    {
      transactionActive := false;
      transactionLen := 0;
      dataTransaction := false;
      isWrite := true;
      sent := sent + [SpiFrame(CMD_FT812, ADDR_CMD_BYTE1, cmd1)];
      sent := sent + [SpiFrame(CMD_FT812, ADDR_CMD_BYTE2, cmd2)];
      sent := sent + [SpiFrame(CMD_FT812, ADDR_CMD_BYTE3, cmd3)];
    }

    /** `sendCommand`: a 24-bit host command, most significant byte first. */
    method SendCommand(cmd: bv32)
      requires Valid()
      modifies this
      ensures Valid() && Setup() == old(Setup()) && Fifo() == old(Fifo())
      ensures sent == old(sent) + [SpiFrame(CMD_FT812, ADDR_CMD_BYTE1, Lo(cmd >> 16)),
                                   SpiFrame(CMD_FT812, ADDR_CMD_BYTE2, Lo(cmd >> 8)),
                                   SpiFrame(CMD_FT812, ADDR_CMD_BYTE3, Lo(cmd))]
      ensures Link() == (true, false, true, 0)
    {
      Command(Lo(cmd >> 16), Lo(cmd >> 8), Lo(cmd));
    }

    /**
     * `write(addr, data, len)`: the transaction length, the address bytes
     * tagged as a write, then the data bytes.
     */
    method Write(addr: bv32, data: seq<bv8>)
      requires Valid() && |data| < 256
      modifies this
      ensures Valid() && Setup() == old(Setup()) && Fifo() == old(Fifo())
      ensures sent == old(sent) + WriteFrames(addr, data)
      ensures Link() == (true, true, true, |data|)
    {
      transactionActive := true;
      dataTransaction := true;
      transactionLen := |data|;
      isWrite := true;
      sent := sent + Header(addr, Byte(|data|), true);
      var i := 0;
      while i < |data|
        invariant 0 <= i <= |data|
        invariant sent == old(sent) + Header(addr, Byte(|data|), true) + DataFrames(data[..i])
        invariant Valid() && Setup() == old(Setup()) && Fifo() == old(Fifo())
        invariant Link() == (true, true, true, |data|)
      {
        DataFramesSnoc(data, i);
        sent := sent + [SpiFrame(CMD_FT812_DATA, Byte(i), data[i])];
        i := i + 1;
      }
      assert data[..i] == data;
    }

    /** `setData(pos, val)`: one reply byte from the FPGA. */
    method SetData(pos: u8, val: bv8)
      requires Valid()
      modifies this, buf
      ensures Valid() && Setup() == old(Setup()) && Fifo() == old(Fifo()) && sent == old(sent)
      ensures buf[..] == if !isWrite && pos >= HeaderLength()
                         then old(buf[..])[pos - HeaderLength() := val]
                         else old(buf[..])
      ensures transactionActive == (old(transactionActive) && pos < ReplyLength() - 1)
      ensures (dataTransaction, isWrite, transactionLen) == old((dataTransaction, isWrite, transactionLen))
    {
      var countSystem: nat := if dataTransaction then (if isWrite then 3 else 4) else 3;
      var countBytes: nat := if dataTransaction then (countSystem + transactionLen) % 256 else countSystem;
      if pos >= countSystem {
        if !isWrite {
          buf[pos - countSystem] := val;
        }
      }
      if pos >= countBytes - 1 {
        transactionActive := false;
      }
    }

    /** `getData(pos)`. */
    function GetData(pos: u8): bv8
      requires Valid()
      reads this, buf
    {
      buf[pos]
    }

    /**
     * `wait()` as far as the reply goes: the FPGA hands back the reply
     * bytes in order, each through `setData`. Reply bytes of a read fill
     * `buf` after the header; the transaction ends with the last byte of a
     * full reply.
     */
    method Await(reply: seq<bv8>)
      requires Valid() && |reply| <= 256
      modifies this, buf
      ensures Valid() && Setup() == old(Setup()) && Fifo() == old(Fifo()) && sent == old(sent)
      ensures buf[..] == if isWrite then old(buf[..]) else Overlay(old(buf[..]), reply, HeaderLength())
      ensures transactionActive == (old(transactionActive) && !(0 < |reply| && ReplyLength() <= |reply|))
      ensures (dataTransaction, isWrite, transactionLen) == old((dataTransaction, isWrite, transactionLen))
    {
      var i := 0;
      while i < |reply|
        invariant 0 <= i <= |reply|
        invariant Valid() && Setup() == old(Setup()) && Fifo() == old(Fifo()) && sent == old(sent)
        invariant (dataTransaction, isWrite, transactionLen) == old((dataTransaction, isWrite, transactionLen))
        invariant buf[..] == if isWrite then old(buf[..]) else Overlay(old(buf[..]), reply[..i], HeaderLength())
        invariant transactionActive == (old(transactionActive) && !(0 < i && ReplyLength() <= i))
      {
        OverlayStep(old(buf[..]), reply, i, HeaderLength());
        SetData(i, reply[i]);
        i := i + 1;
      }
      assert reply[..i] == reply;
    }

    /**
     * `read(addr, len)`: the transaction length, the address bytes tagged
     * as a read, a dummy address byte and `len` dummy data bytes; then the
     * reply bytes.
     */
    method Read(addr: bv32, len: nat, reply: seq<bv8>)
      requires Valid() && len < 256 && |reply| <= 256
      modifies this, buf
      ensures Valid() && Setup() == old(Setup()) && Fifo() == old(Fifo())
      ensures sent == old(sent) + ReadFrames(addr, len)
      ensures buf[..] == Overlay(old(buf[..]), reply, 4)
      ensures Link() == (!(0 < |reply| && (4 + len) % 256 <= |reply|), true, false, len)
    {
      transactionActive := true;
      dataTransaction := true;
      transactionLen := len;
      isWrite := false;
      sent := sent + Header(addr, Byte(len), false) + [SpiFrame(CMD_FT812, ADDR_ADDRESS_BYTE4, 0)];
      ClockOut(len);
      Await(reply);
    }

    /** The `len` dummy data frames a read clocks out while the reply comes in. */
    method ClockOut(len: nat)
      requires Valid() && len < 256
      modifies this
      ensures sent == old(sent) + DataFrames(Repeat(0, len))
      ensures Valid() && Setup() == old(Setup()) && Fifo() == old(Fifo()) && Link() == old(Link())
    {
      ghost var sent0, setup0, fifo0, link0 := sent, Setup(), Fifo(), Link();
      ghost var zeros := Repeat(0, len);
      var i := 0;
      while i < len
        invariant 0 <= i <= len
        invariant sent == sent0 + DataFrames(zeros[..i])
        invariant Valid() && Setup() == setup0 && Fifo() == fifo0 && Link() == link0
      {
        DataFramesSnoc(zeros, i);
        sent := sent + [SpiFrame(CMD_FT812_DATA, Byte(i), 0)];
        i := i + 1;
      }
      assert zeros[..i] == zeros;
    }

    /** `read8`. */
    method Read8(addr: bv32, reply: seq<bv8>) returns (r: bv8)
      requires Valid() && |reply| <= 256
      modifies this, buf
      ensures Valid() && Setup() == old(Setup()) && Fifo() == old(Fifo())
      ensures r == Overlay(old(buf[..]), reply, 4)[0]
      ensures 5 <= |reply| ==> r == reply[4]
      ensures sent == old(sent) + ReadFrames(addr, 1)
      ensures buf[..] == Overlay(old(buf[..]), reply, 4)
      ensures Link() == (|reply| < 5, true, false, 1)
    {
      Read(addr, 1, reply);
      r := GetData(0);
    }

    /** `read16`: two reply bytes, little-endian. */
    method Read16(addr: bv32, reply: seq<bv8>) returns (r: bv16)
      requires Valid() && |reply| <= 256
      modifies this, buf
      ensures Valid() && Setup() == old(Setup()) && Fifo() == old(Fifo())
      ensures r == FromLe16(Overlay(old(buf[..]), reply, 4)[0], Overlay(old(buf[..]), reply, 4)[1])
      ensures 6 <= |reply| ==> r == FromLe16(reply[4], reply[5])
      ensures sent == old(sent) + ReadFrames(addr, 2)
      ensures buf[..] == Overlay(old(buf[..]), reply, 4)
      ensures Link() == (|reply| < 6, true, false, 2)
    {
      Read(addr, 2, reply);
      r := FromLe16(GetData(0), GetData(1));
    }

    /** `read32`: four reply bytes, little-endian. */
    method Read32(addr: bv32, reply: seq<bv8>) returns (r: bv32)
      requires Valid() && |reply| <= 256
      modifies this, buf
      ensures Valid() && Setup() == old(Setup()) && Fifo() == old(Fifo())
      ensures var o := Overlay(old(buf[..]), reply, 4); r == FromLe32(o[0], o[1], o[2], o[3])
      ensures 8 <= |reply| ==> r == FromLe32(reply[4], reply[5], reply[6], reply[7])
      ensures sent == old(sent) + ReadFrames(addr, 4)
      ensures buf[..] == Overlay(old(buf[..]), reply, 4)
      ensures Link() == (|reply| < 8, true, false, 4)
    {
      Read(addr, 4, reply);
      r := FromLe32(GetData(0), GetData(1), GetData(2), GetData(3));
    }

    /** `write8`. */
    method Write8(addr: bv32, data: bv8)
      requires Valid()
      modifies this
      ensures Valid() && Setup() == old(Setup()) && Fifo() == old(Fifo())
      ensures sent == old(sent) + WriteFrames(addr, [data])
      ensures Link() == (true, true, true, 1)
    {
      Write(addr, [data]);
    }

    /** `write16`: the value as two little-endian bytes. */
    method Write16(addr: bv32, data: bv16)
      requires Valid()
      modifies this
      ensures Valid() && Setup() == old(Setup()) && Fifo() == old(Fifo())
      ensures sent == old(sent) + WriteFrames(addr, Le16(data))
      ensures Link() == (true, true, true, 2)
    {
      var b0 := (data & 0x00FF) as bv8;
      var b1 := (data >> 8) as bv8;
      Write(addr, [b0, b1]);
    }

    /** `write32`: the value as four little-endian bytes. */
    method Write32(addr: bv32, data: bv32)
      requires Valid()
      modifies this
      ensures Valid() && Setup() == old(Setup()) && Fifo() == old(Fifo())
      ensures sent == old(sent) + WriteFrames(addr, Le32(data))
      ensures Link() == (true, true, true, 4)
    {
      var b0 := Lo(data & 0x000000FF);
      var b1 := Lo((data & 0x0000FF00) >> 8);
      var b2 := Lo((data & 0x00FF0000) >> 16);
      var b3 := Lo((data & 0xFF000000) >> 24);
      assert [b0, b1, b2, b3] == Le32(data);
      Write(addr, [b0, b1, b2, b3]);
    }

    /**
     * `cmd(c)`: reads the FIFO write pointer from the chip, writes the word
     * at that FIFO slot and publishes the pointer advanced by 4, modulo
     * 4096.
     */
    method Cmd(c: bv32, reply: seq<bv8>)
      requires Valid() && |reply| <= 256
      modifies this, buf
      ensures Valid() && Setup() == old(Setup()) && Fifo() == old(Fifo())
      ensures buf[..] == Overlay(old(buf[..]), reply, 4)
      ensures sent == CmdLog(old(sent), FromLe16(buf[0], buf[1]), c)
      ensures Link() == (true, true, true, 2)
    {
      var cmdWrite := Read16(REG_CMD_WRITE, reply);
      assert cmdWrite == FromLe16(buf[0], buf[1]);
      ghost var s1 := sent;
      var addr := RAM_CMD + cmdWrite as bv32;
      Write32(addr, c);
      assert sent == s1 + WriteFrames(addr, Le32(c));
      ghost var s2 := sent;
      var next := (cmdWrite + 4) % 4096;
      Write16(REG_CMD_WRITE, next);
      assert sent == s2 + WriteFrames(REG_CMD_WRITE, Le16(next));
      assert sent == CmdLog(old(sent), cmdWrite, c);
    }

    /** `buf[transaction_len++] = b`. */
    method PutByte(b: bv8)
      requires Valid()
      modifies this, buf
      ensures Valid() && Setup() == old(Setup()) && Fifo() == old(Fifo()) && sent == old(sent)
      ensures buf[..] == old(buf[..])[old(transactionLen) := b]
      ensures transactionLen == (old(transactionLen) + 1) % 256
      ensures (transactionActive, dataTransaction, isWrite) == old((transactionActive, dataTransaction, isWrite))
    {
      buf[transactionLen] := b;
      transactionLen := (transactionLen + 1) % 256;
    }

    /** The four bytes of a command word, least significant first. */
    method PutWord(c: bv32)
      requires Valid()
      modifies this, buf
      ensures Valid() && Setup() == old(Setup()) && Fifo() == old(Fifo()) && sent == old(sent)
      ensures buf[..] == PutBytes(old(buf[..]), old(transactionLen), Le32(c))
      ensures transactionLen == (old(transactionLen) + 4) % 256
      ensures (transactionActive, dataTransaction, isWrite) == old((transactionActive, dataTransaction, isWrite))
    {
      var bytes := Le32(c);
      PutFour(buf[..], transactionLen, bytes);
      NextFour(transactionLen);
      PutByte(bytes[0]);
      PutByte(bytes[1]);
      PutByte(bytes[2]);
      PutByte(bytes[3]);
    }

    /** `increaseCmdWriteAddress(4)`. */
    method IncreaseCmdWriteAddress()
      requires Valid()
      modifies this
      ensures Valid() && Setup() == old(Setup()) && Link() == old(Link()) && sent == old(sent)
      ensures cmdWriteAddress == (old(cmdWriteAddress) + 4) % 4096 && cmdAddr == old(cmdAddr)
    {
      cmdWriteAddress := (cmdWriteAddress + 4) % 4096;
    }

    /** `updateCmdWriteAddress()`: publishes the FIFO write offset through REG_CMD_WRITE. */
    method UpdateCmdWriteAddress()
      requires Valid()
      modifies this
      ensures Valid() && Setup() == old(Setup()) && Fifo() == old(Fifo())
      ensures sent == old(sent) + WriteFrames(REG_CMD_WRITE, Le16(Half(cmdWriteAddress)))
      ensures Link() == (true, true, true, 2)
    {
      Write16(REG_CMD_WRITE, Half(cmdWriteAddress));
    }

    /**
     * `startCmd(c)`: opens a new batch of command words at the current FIFO
     * slot, with `c` as its first word.
     */
    method StartCmd(c: bv32)
      requires Valid()
      modifies this, buf
      ensures Valid() && Setup() == old(Setup()) && sent == old(sent)
      ensures cmdAddr == RAM_CMD + Word(old(cmdWriteAddress))
      ensures cmdWriteAddress == (old(cmdWriteAddress) + 4) % 4096
      ensures transactionLen == 4 && Pending() == Le32(c) && buf[4..] == old(buf[4..])
      ensures dataTransaction
      ensures (transactionActive, isWrite) == old((transactionActive, isWrite))
    {
      var addr := RAM_CMD + Word(cmdWriteAddress);
      transactionLen := 0;
      dataTransaction := true;
      cmdAddr := addr;
      PutWord(c);
      PutBytesNoWrap(old(buf[..]), 0, Le32(c));
      IncreaseCmdWriteAddress();
    }

    /** `intermediateCmd(c)`: one more word for the open batch. */
    method IntermediateCmd(c: bv32)
      requires Valid()
      modifies this, buf
      ensures Valid() && Setup() == old(Setup()) && sent == old(sent)
      ensures buf[..] == PutBytes(old(buf[..]), old(transactionLen), Le32(c))
      ensures transactionLen == (old(transactionLen) + 4) % 256
      ensures cmdWriteAddress == (old(cmdWriteAddress) + 4) % 4096 && cmdAddr == old(cmdAddr)
      ensures (transactionActive, dataTransaction, isWrite) == old((transactionActive, dataTransaction, isWrite))
    {
      PutWord(c);
      IncreaseCmdWriteAddress();
    }

    /**
     * `endCmd(c)`: the last word of the batch. The collected bytes go to
     * the FIFO in one write transaction, then the advanced FIFO pointer is
     * published through REG_CMD_WRITE.
     */
    method EndCmd(c: bv32)
      requires Valid()
      modifies this, buf
      ensures Valid() && Setup() == old(Setup())
      ensures buf[..] == PutBytes(old(buf[..]), old(transactionLen), Le32(c))
      ensures cmdWriteAddress == (old(cmdWriteAddress) + 4) % 4096 && cmdAddr == old(cmdAddr)
      ensures sent == BatchLog(old(sent), cmdAddr, buf[..(old(transactionLen) + 4) % 256], cmdWriteAddress)
      ensures Link() == (true, true, true, 2)
    {
      PutWord(c);
      ghost var b1 := buf[..];
      Write(cmdAddr, buf[..transactionLen]);
      assert buf[..] == b1;
      IncreaseCmdWriteAddress();
      UpdateCmdWriteAddress();
    }

    /**
     * `sendText(text)`: the NUL-terminated string packed four bytes per
     * command word, continuing the open batch; the word holding the NUL in
     * its top byte (or earlier) closes the batch through `endCmd`. The
     * string must be shorter than 256 bytes, otherwise the 8-bit index
     * wraps before the NUL is reached.
     */
    method SendText(text: seq<bv8>)
      requires Valid() && |text| < 256
      requires forall k :: 0 <= k < |text| ==> text[k] != 0
      modifies this, buf
      ensures Valid() && Setup() == old(Setup()) && cmdAddr == old(cmdAddr)
      ensures buf[..] == PutBytes(old(buf[..]), old(transactionLen), TextBytes(text))
      ensures old(transactionLen) + |TextBytes(text)| < 256
              ==> buf[..old(transactionLen) + |TextBytes(text)|] == old(Pending()) + TextBytes(text)
      ensures cmdWriteAddress == (old(cmdWriteAddress) + |TextBytes(text)|) % 4096
      ensures sent == BatchLog(old(sent), cmdAddr, buf[..(old(transactionLen) + |TextBytes(text)|) % 256], cmdWriteAddress)
      ensures Link() == (true, true, true, 2)
    {
      ghost var b0, len0, fifo0 := buf[..], transactionLen, cmdWriteAddress;
      ghost var flags0 := (transactionActive, dataTransaction, isWrite);
      ghost var all := TextBytes(text);
      var data: bv32 := 0xFFFF_FFFF;
      var i := 0;
      ghost var sent0 := sent;
      while data >> 24 != 0
        invariant Setup() == old(Setup()) && cmdAddr == old(cmdAddr) && i % 4 == 0
        invariant TextProgress(b0, len0, fifo0, sent0, flags0, all, i, data >> 24 == 0)
        invariant data >> 24 != 0 ==> i <= |text|
        decreases |text| + 4 - i
      {
        data, i := TextPass(text, i, b0, len0, fifo0, sent0, flags0, all);
      }
      // The loop only ends after `endCmd`, with a zero top byte, so the
      // source's trailing `endCmd(0)` is never reached.
      if len0 + |all| < 256 {
        PutBytesNoWrap(b0, len0, all);
      }
    }

    /**
     * Where `sendText` stands after the words before offset `i` of the
     * padded text `all`: still collecting the batch, or (`done`) with the
     * batch written and the FIFO pointer published.
     */
    ghost predicate TextProgress(b0: seq<bv8>, len0: nat, fifo0: nat, sent0: seq<SpiFrame>,
                                 flags0: (bool, bool, bool), all: seq<bv8>, i: nat, done: bool)
      reads this, buf
    {
      && Valid() && |b0| == 256 && len0 < 256 && i <= |all| <= 256
      && (!done ==>
          && buf[..] == PutBytes(b0, len0, all[..i])
          && transactionLen == (len0 + i) % 256
          && cmdWriteAddress == (fifo0 + i) % 4096
          && sent == sent0
          && (transactionActive, dataTransaction, isWrite) == flags0)
      && (done ==>
          && buf[..] == PutBytes(b0, len0, all)
          && cmdWriteAddress == (fifo0 + |all|) % 4096
          && sent == BatchLog(sent0, cmdAddr, buf[..(len0 + |all|) % 256], cmdWriteAddress)
          && Link() == (true, true, true, 2))
    }

    /** One pass of the `sendText` loop: pack the next word and hand it on. */
    method TextPass(text: seq<bv8>, i: nat, ghost b0: seq<bv8>, ghost len0: nat, ghost fifo0: nat,
                    ghost sent0: seq<SpiFrame>, ghost flags0: (bool, bool, bool), ghost all: seq<bv8>)
      returns (data: bv32, next: nat)
      requires all == TextBytes(text) && |text| < 256 && i % 4 == 0 && i <= |text|
      requires forall k :: 0 <= k < |text| ==> text[k] != 0
      requires TextProgress(b0, len0, fifo0, sent0, flags0, all, i, false)
      modifies this, buf
      ensures Setup() == old(Setup()) && cmdAddr == old(cmdAddr)
      ensures next == i + 4 && next % 4 == 0
      ensures TextProgress(b0, len0, fifo0, sent0, flags0, all, next, data >> 24 == 0)
      ensures data >> 24 != 0 ==> next <= |text|
    {
      data := PackText(text, i);
      next := i + 4;
      if data >> 24 != 0 {
        TextMiddle(data, b0, len0, fifo0, all, i);
      } else {
        TextLast(data, b0, len0, fifo0, all, i);
        assert all[..i + 4] == all;
      }
    }

    /** A `sendText` pass that continues the batch: `intermediateCmd(data)`. */
    method TextMiddle(data: bv32, ghost b0: seq<bv8>, ghost len0: nat, ghost fifo0: nat, ghost all: seq<bv8>, ghost i: nat)
      requires Valid() && |b0| == 256 && len0 < 256 && i + 4 <= |all|
      requires Le32(data) == all[i..i + 4]
      requires buf[..] == PutBytes(b0, len0, all[..i])
      requires transactionLen == (len0 + i) % 256
      requires cmdWriteAddress == (fifo0 + i) % 4096
      modifies this, buf
      ensures Valid() && Setup() == old(Setup()) && sent == old(sent) && cmdAddr == old(cmdAddr)
      ensures buf[..] == PutBytes(b0, len0, all[..i + 4])
      ensures transactionLen == (len0 + i + 4) % 256
      ensures cmdWriteAddress == (fifo0 + i + 4) % 4096
      ensures (transactionActive, dataTransaction, isWrite) == old((transactionActive, dataTransaction, isWrite))
    {
      TextStep(b0, len0, all, i);
      Mod256Add(len0 + i, 4);
      Mod4096Add(fifo0 + i, 4);
      IntermediateCmd(data);
    }

    /** The `sendText` pass that holds the NUL: `endCmd(data)` closes the batch. */
    method TextLast(data: bv32, ghost b0: seq<bv8>, ghost len0: nat, ghost fifo0: nat, ghost all: seq<bv8>, ghost i: nat)
      requires Valid() && |b0| == 256 && len0 < 256 && i + 4 == |all|
      requires Le32(data) == all[i..i + 4]
      requires buf[..] == PutBytes(b0, len0, all[..i])
      requires transactionLen == (len0 + i) % 256
      requires cmdWriteAddress == (fifo0 + i) % 4096
      modifies this, buf
      ensures Valid() && Setup() == old(Setup()) && cmdAddr == old(cmdAddr)
      ensures buf[..] == PutBytes(b0, len0, all[..i + 4])
      ensures cmdWriteAddress == (fifo0 + i + 4) % 4096
      ensures sent == BatchLog(old(sent), cmdAddr, buf[..(len0 + i + 4) % 256], cmdWriteAddress)
      ensures Link() == (true, true, true, 2)
    {
      TextStep(b0, len0, all, i);
      Mod256Add(len0 + i, 4);
      Mod4096Add(fifo0 + i, 4);
      EndCmd(data);
    }

    /**
     * The body of one `sendText` pass: the next four characters packed into
     * a command word, least significant first, stopping at the NUL.
     */
    method PackText(text: seq<bv8>, i: nat) returns (data: bv32)
      requires |text| < 256 && i % 4 == 0 && i <= |text|
      requires forall k :: 0 <= k < |text| ==> text[k] != 0
      ensures i + 4 <= |TextBytes(text)|
      ensures Le32(data) == TextBytes(text)[i..i + 4]
      ensures (data >> 24 != 0) == (i + 3 < |text|)
      ensures i + 3 >= |text| ==> i + 4 == |TextBytes(text)|
    {
      TextWindow(text, i);
      ghost var t := TextBytes(text);
      // Each `data |= text[k] << 8 * (k - i)` of the source, written as the
      // word of the bytes read so far (see `OrFirstByte` .. `OrFourthByte`).
      data := 0;
      if CharAt(text, i) != 0 {
        data := FromLe32(CharAt(text, i), 0, 0, 0);
        if CharAt(text, i + 1) != 0 {
          data := FromLe32(CharAt(text, i), CharAt(text, i + 1), 0, 0);
          if CharAt(text, i + 2) != 0 {
            data := FromLe32(CharAt(text, i), CharAt(text, i + 1), CharAt(text, i + 2), 0);
            if CharAt(text, i + 3) != 0 {
              data := FromLe32(CharAt(text, i), CharAt(text, i + 1), CharAt(text, i + 2), CharAt(text, i + 3));
            }
          }
        }
      } else {
        assert data == FromLe32(0, 0, 0, 0);
      }
      assert data == FromLe32(t[i], t[i + 1], t[i + 2], t[i + 3]);
      Le32RoundTrip(data, t[i], t[i + 1], t[i + 2], t[i + 3]);
      TopByte(data);
      assert t[i..i + 4] == [t[i], t[i + 1], t[i + 2], t[i + 3]];
    }

    /** `initBitmapHandleForFont(font)`: loads a ROM font above 31 into handle 14. */
    method InitBitmapHandleForFont(font: bv8) returns (h: bv8)
      requires Valid()
      modifies this, buf
      ensures Valid() && Setup() == old(Setup())
      ensures h == FontHandle(font)
      ensures font <= 31 ==> buf[..] == old(buf[..]) && sent == old(sent) && Link() == old(Link()) && Fifo() == old(Fifo())
      ensures font > 31 ==>
        && cmdAddr == RAM_CMD + Word(old(cmdWriteAddress))
        && buf[..12] == Le32(RomFont) + Le32(14) + Le32(font as bv32)
        && sent == BatchLog(old(sent), cmdAddr, buf[..12], cmdWriteAddress)
        && cmdWriteAddress == (old(cmdWriteAddress) + 12) % 4096
    {
      if font > 31 {
        LoadRomFont(font);
        return 14;
      }
      return font;
    }

    /** The batch `initBitmapHandleForFont` sends for a ROM font: CMD_ROMFONT, handle 14, the font. */
    method LoadRomFont(font: bv8)
      requires Valid()
      modifies this, buf
      ensures Valid() && Setup() == old(Setup())
      ensures cmdAddr == RAM_CMD + Word(old(cmdWriteAddress))
      ensures buf[..12] == Le32(RomFont) + Le32(14) + Le32(font as bv32)
      ensures sent == BatchLog(old(sent), cmdAddr, buf[..12], cmdWriteAddress)
      ensures cmdWriteAddress == (old(cmdWriteAddress) + 12) % 4096
    {
      ghost var fifo0 := cmdWriteAddress;
      ghost var w := Le32(font as bv32);
      RomFontHead();
      ghost var b2 := buf[..];
      EndCmd(font as bv32);
      Mod256Small(8 + 4);
      Mod4096Add(fifo0 + 8, 4);
      PutBytesNoWrap(b2, 8, w);
      assert buf[..][..12] == b2[..8] + w;
      assert buf[..12] == buf[..][..12];
    }

    /** The first two words of the ROM font batch: `startCmd(ROMFONT())`, `intermediateCmd(14)`. */
    method RomFontHead()
      requires Valid()
      modifies this, buf
      ensures Valid() && Setup() == old(Setup()) && sent == old(sent)
      ensures cmdAddr == RAM_CMD + Word(old(cmdWriteAddress))
      ensures transactionLen == 8 && buf[..8] == Le32(RomFont) + Le32(14)
      ensures cmdWriteAddress == (old(cmdWriteAddress) + 8) % 4096
    {
      ghost var fifo0 := cmdWriteAddress;
      StartCmd(RomFont);
      ghost var b1 := buf[..];
      IntermediateCmd(14);
      PutBytesNoWrap(b1, 4, Le32(14));
      assert buf[..][..8] == b1[..4] + Le32(14);
      Mod4096Add(fifo0 + 4, 4);
    }

    /**
     * `writeGRAM(offset, size, data)`: the data in 128-byte write
     * transactions at consecutive addresses from RAM_G + offset.
     */
    method WriteGram(offset: bv32, data: seq<bv8>)
      requires Valid() && |data| < 0x1_0000_0000
      modifies this
      ensures Valid() && Setup() == old(Setup()) && Fifo() == old(Fifo())
      ensures sent == old(sent) + GramFrames(RAM_G + offset, data)
      ensures data == [] ==> Link() == old(Link())
    {
      // chunk_size is 128 throughout.
      var chunks := (|data| + 127) / 128;
      var dbuf := new bv8[128];
      var cmd := RAM_G + offset;
      var j := 0;
      ghost var pos := 0;
      ghost var sent0, setup0, fifo0, link0 := sent, Setup(), Fifo(), Link();
      while j < chunks
        invariant 0 <= j <= chunks
        invariant pos == if j < chunks then j * 128 else |data|
        invariant j < chunks ==> pos < |data|
        invariant GramLog(sent, cmd, data[pos..]) == GramLog(sent0, RAM_G + offset, data)
        invariant Valid() && Setup() == setup0 && Fifo() == fifo0
        invariant j == 0 ==> Link() == link0
      {
        var tail := |data| - j * 128;
        var to := if j == chunks - 1 then tail else 128;
        ChunkCount(|data|, j);
        GramStep(dbuf, data, j * 128, to, cmd, sent0, RAM_G + offset);
        pos := j * 128 + to;
        cmd := cmd + 128;
        j := j + 1;
      }
      GramLogFrames(old(sent), RAM_G + offset, data);
    }

    /** The inner loop of `writeGRAM`: `to` bytes of `data` from `from` into `dbuf`. */
    /**
     * One pass of the `writeGRAM` loop: the chunk at `from` is copied to the
     * staging buffer and written to `cmd`; what is left of the upload moves
     * on to the next 128-byte slot.
     */
    method GramStep(dbuf: array<bv8>, data: seq<bv8>, from: nat, to: nat, cmd: bv32,
                    ghost sent0: seq<SpiFrame>, ghost addr0: bv32)
      requires Valid() && dbuf.Length == 128 && 0 < to && from + to <= |data|
      requires to == if |data| - from < 128 then |data| - from else 128
      requires GramLog(sent, cmd, data[from..]) == GramLog(sent0, addr0, data)
      modifies this, dbuf
      ensures Valid() && Setup() == old(Setup()) && Fifo() == old(Fifo())
      ensures GramLog(sent, cmd + 128, data[from + to..]) == GramLog(sent0, addr0, data)
    {
      CopyChunk(dbuf, data, from, to);
      ghost var rest := data[from..];
      assert rest[..to] == dbuf[..to];
      ghost var s0 := sent;
      Write(cmd, dbuf[..to]);
      GramLogStep(s0, cmd, rest, to);
      assert rest[to..] == data[from + to..];
    }

    static method CopyChunk(dbuf: array<bv8>, data: seq<bv8>, from: nat, to: nat)
      requires to <= dbuf.Length && from + to <= |data|
      modifies dbuf
      ensures dbuf[..to] == data[from..from + to]
    {
      var i := 0;
      while i < to
        invariant 0 <= i <= to
        invariant dbuf[..i] == data[from..from + i]
      {
        dbuf[i] := data[i + from];
        i := i + 1;
      }
    }

    /** The ten `write16` calls of `init` that program the RGB timing registers. */
    method WriteTiming(t: Timing)
      requires Valid()
      modifies this
      ensures Valid() && Setup() == old(Setup()) && Fifo() == old(Fifo())
      ensures sent == TimingLog(old(sent), t)
    {
      Write16(REG_HSYNC0, Bits16(t.hSync0));
      Write16(REG_HSYNC1, Bits16(t.hSync1));
      Write16(REG_HOFFSET, Bits16(t.hOffset));
      Write16(REG_HCYCLE, Bits16(t.hCycle));
      Write16(REG_HSIZE, Bits16(t.hSize));
      Write16(REG_VSYNC0, Bits16(t.vSync0));
      Write16(REG_VSYNC1, Bits16(t.vSync1));
      Write16(REG_VOFFSET, Bits16(t.vOffset));
      Write16(REG_VCYCLE, Bits16(t.vCycle));
      Write16(REG_VSIZE, Bits16(t.vSize));
    }

    /**
     * The timing part of `init(m)`: the mode becomes current and its ten
     * timing registers are written, each as a 16-bit value.
     */
    method ConfigureTiming(m: nat)
      requires Valid() && m < |Modes|
      modifies this
      ensures Valid() && Fifo() == old(Fifo()) && buf == old(buf) && ctrlReg == old(ctrlReg)
      ensures mode == Modes[m]
      ensures sent == TimingLog(old(sent), TimingOf(mode))
    {
      var md := Modes[m];
      var t := TimingOf(md);
      mode := md;
      WriteTiming(t);
    }
  }
}
