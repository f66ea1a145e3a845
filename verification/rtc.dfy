// The RTC register bridge: the FPGA sees an MC146818-style CMOS register
// file. Registers 0..9 mirror the DS3231 time and alarm fields, 0xA..0xD are
// the status registers, and every other register is an EEPROM byte held
// either in the external I2C EEPROM (banks 0..3) or in the current core's
// EEPROM image (banks 4..254). All register traffic to the FPGA goes out as
// `CMD_RTC` frames.
//
// Register values are `uint8_t` in the firmware and `bv8` here, so the
// wrap-around of `bin2bcd` / `bcd2bin` on out-of-range input is the C one.

module RtcBridge {
  import opened Common

  const CMD_RTC: bv8 := 0xFA
  const NO_EEPROM_BANK: u8 := 255

  // ---------------------------------------------------------------------
  // Number formats
  // ---------------------------------------------------------------------

  /** `bin2bcd`: tens in the high nibble, units in the low one. */
  function Bin2Bcd(v: bv8): bv8
  {
    v + 6 * (v / 10)
  }

  /** `bcd2bin`: the inverse of `Bin2Bcd` on well-formed BCD bytes. */
  function Bcd2Bin(b: bv8): bv8
  {
    b - 6 * (b >> 4)
  }

  /** Both nibbles are decimal digits. */
  predicate IsBcd(b: bv8)
  {
    b >> 4 < 10 && b & 0x0F < 10
  }

  lemma BinBcdRoundTrip(v: bv8)
    requires v < 100
    ensures IsBcd(Bin2Bcd(v)) && Bcd2Bin(Bin2Bcd(v)) == v
  {
  }

  lemma BcdBinRoundTrip(b: bv8)
    requires IsBcd(b)
    ensures Bcd2Bin(b) < 100 && Bin2Bcd(Bcd2Bin(b)) == b
  {
  }

  /** `time_to12h`: hour 0 is 12, afternoon hours lose 12. */
  function TimeTo12h(h: bv8): (r: bv8)
    ensures h < 24 ==> 1 <= r <= 12
    ensures h <= 12 && h != 0 ==> r == h
  {
    if h == 0 then 12 else if h > 12 then h - 12 else h
  }

  /** A stored value as the FPGA reads it: BCD when the guest asked for BCD. */
  function Encode(bcd: bool, v: bv8): bv8
  {
    if bcd then Bin2Bcd(v) else v
  }

  /** A value written by the guest as it is stored: decoded from BCD when in BCD mode. */
  function Decode(bcd: bool, d: bv8): bv8
  {
    if bcd then Bcd2Bin(d) else d
  }

  /** Reading back what was written gives the written byte, in either mode. */
  lemma EncodeDecode(bcd: bool, d: bv8)
    requires bcd ==> IsBcd(d)
    ensures Encode(bcd, Decode(bcd, d)) == d
  {
    if bcd {
      BcdBinRoundTrip(d);
    }
  }

  // ---------------------------------------------------------------------
  // The clock registers 0..9
  // ---------------------------------------------------------------------

  const SECONDS: u8 := 0
  const SECONDS_ALARM: u8 := 1
  const MINUTES: u8 := 2
  const MINUTES_ALARM: u8 := 3
  const HOURS: u8 := 4
  const HOURS_ALARM: u8 := 5
  const WEEK: u8 := 6
  const DAY: u8 := 7
  const MONTH: u8 := 8
  const YEAR: u8 := 9

  /**
   * The `rtc_*` time fields seen as the register file: `time[r]` is the
   * binary value behind clock register r (seconds, seconds alarm, minutes,
   * minutes alarm, hours, hours alarm, day of week, date, month, year),
   * plus the two mode flags.
   */
  datatype ClockRegs = ClockRegs(time: seq<bv8>, isBcd: bool, is24h: bool)
  {
    ghost predicate Valid()
    {
      |time| == 10
    }
  }

  /** An hour register as sent: 12-hour format only when 24-hour mode is off. */
  function HourValue(c: ClockRegs, h: bv8): bv8
  {
    if c.is24h then Encode(c.isBcd, h) else Encode(c.isBcd, TimeTo12h(h))
  }

  /** The value of clock register `reg` as `sendTime` and `sendAll` send it. */
  function TimeValue(c: ClockRegs, reg: u8): bv8
    requires c.Valid() && reg < 10
  {
    if reg == HOURS || reg == HOURS_ALARM then HourValue(c, c.time[reg])
    else Encode(c.isBcd, c.time[reg])
  }

  /** The effect of `setData(reg, d)` on clock register `reg`. */
  function StoreTime(c: ClockRegs, reg: u8, d: bv8): (r: ClockRegs)
    requires c.Valid() && reg < 10
    ensures r.Valid()
  {
    c.(time := c.time[reg := Decode(c.isBcd, d)])
  }

  /** The calls into the DS3231 driver, recorded rather than performed. */
  datatype ClockWrite =
    | SetSecond(v: bv8) | SetMinute(v: bv8) | SetHour(v: bv8) | SetDoW(v: bv8)
    | SetDate(v: bv8) | SetMonth(v: bv8) | SetYear(v: bv8) | SetClockMode(h12: bool)

  /** What `setData` passes on to the DS3231 for a clock register; alarms stay local. */
  function ClockWritesFor(reg: u8, v: bv8): seq<ClockWrite>
  {
    match reg
    case 0 => [SetSecond(v)]
    case 2 => [SetMinute(v)]
    case 4 => [SetClockMode(false), SetHour(v)]
    case 6 => [SetDoW(v)]
    case 7 => [SetDate(v)]
    case 8 => [SetMonth(v)]
    case 9 => [SetYear(v)]
    case _ => []
  }

  // ---------------------------------------------------------------------
  // EEPROM routing
  // ---------------------------------------------------------------------

  /**
   * The two EEPROM stores and the bank that selects between them: the
   * 1024-byte external EEPROM (four banks of 256) when it answered at start
   * up, and the current core's 256-byte image.
   */
  datatype Eeprom = Eeprom(present: bool, bank: u8, external: seq<bv8>, core: seq<bv8>)
  {
    ghost predicate Valid()
    {
      |external| == 1024 && |core| == 256
    }

    /** Banks 0..3 go to the external EEPROM if there is one. */
    predicate External()
    {
      present && bank < 4
    }

    /** Banks 4..254 go to the core's EEPROM image. */
    predicate Core()
    {
      4 <= bank < NO_EEPROM_BANK
    }

    /** Whether register accesses reach a store at all. */
    predicate Routed()
    {
      External() || Core()
    }

    /** `eeprom_bank * 256 + reg`. */
    function Address(reg: u8): (a: nat)
      requires External()
      ensures a < 1024
    {
      bank * 256 + reg
    }
  }

  /** `getEepromReg`: the routed byte, or 0xFF when no store is selected. */
  function Get(e: Eeprom, reg: u8): (r: bv8)
    requires e.Valid()
    ensures !e.Routed() ==> r == 0xFF
  {
    if e.External() then e.external[e.Address(reg)]
    else if e.Core() then e.core[reg]
    else 0xFF
  }

  /** `setEepromReg`: the routed byte replaced; dropped when no store is selected. */
  function Set(e: Eeprom, reg: u8, val: bv8): (r: Eeprom)
    requires e.Valid()
    ensures r.Valid() && r.present == e.present && r.bank == e.bank
    ensures !e.Routed() ==> r == e
  {
    if e.External() then e.(external := e.external[e.Address(reg) := val])
    else if e.Core() then e.(core := e.core[reg := val])
    else e
  }

  /** A routed write is read back. */
  lemma GetSet(e: Eeprom, reg: u8, val: bv8)
    requires e.Valid() && e.Routed()
    ensures Get(Set(e, reg, val), reg) == val
  {
  }

  /** A write touches no other register of the selected bank. */
  lemma GetSetOther(e: Eeprom, reg: u8, other: u8, val: bv8)
    requires e.Valid() && reg != other
    ensures Get(Set(e, reg, val), other) == Get(e, other)
  {
    if e.External() {
      assert e.Address(reg) != e.Address(other);
    }
  }

  /** Writing the byte a register already holds changes nothing. */
  lemma SetSame(e: Eeprom, reg: u8)
    requires e.Valid()
    ensures Set(e, reg, Get(e, reg)) == e
  {
    if e.External() {
      assert e.external[e.Address(reg) := e.external[e.Address(reg)]] == e.external;
    } else if e.Core() {
      assert e.core[reg := e.core[reg]] == e.core;
    }
  }

  // ---------------------------------------------------------------------
  // setData
  // ---------------------------------------------------------------------

  /** Everything `setData` can change. */
  datatype RtcState = RtcState(clock: ClockRegs, lastReg: int, lastData: bv8, store: Eeprom,
                               writes: seq<ClockWrite>)
  {
    ghost predicate Valid()
    {
      clock.Valid() && store.Valid()
    }
  }

  /** `setData` drops a repeated write of the same byte to a clock or status register. */
  predicate Repeated(s: RtcState, reg: u8, d: bv8)
  {
    s.lastReg == reg && s.lastData == d && reg <= 0xD
  }

  /** Register 0xA as stored: bit 7 (update in progress) cleared. */
  function RegA(d: bv8): bv8
  {
    d & 0x7F
  }

  /** Register 0xB as stored: bit 1 (24-hour mode) set, bit 7 (SET) cleared. */
  function RegB(d: bv8): bv8
  {
    (d | 0x02) & 0x7F
  }

  /** The state after the guest writes `d` to register `reg` (`RTC::setData`). */
  function AfterWrite(s: RtcState, reg: u8, d: bv8): (r: RtcState)
    requires s.Valid()
    ensures r.Valid() && r.store.present == s.store.present && r.store.bank == s.store.bank
  {
    if Repeated(s, reg, d) then s
    else
      var s1 := s.(lastReg := reg, lastData := d);
      if reg < 10 then
        var c := StoreTime(s.clock, reg, d);
        s1.(clock := c, writes := s.writes + ClockWritesFor(reg, Decode(s.clock.isBcd, d)))
      else if reg == 0xA then
        s1.(store := Set(s.store, reg, RegA(d)))
      else if reg == 0xB then
        var c := s.clock.(isBcd := d & 0x04 == 0, is24h := true);
        if Get(s.store, reg) != RegB(d) then s1.(clock := c, store := Set(s.store, reg, RegB(d)))
        else s1.(clock := c)
      else if reg <= 0xD then s1
      else s1.(store := Set(s.store, reg, d))
  }

  /** A repeated write is ignored altogether. */
  lemma RepeatedIgnored(s: RtcState, reg: u8, d: bv8)
    requires s.Valid() && Repeated(s, reg, d)
    ensures AfterWrite(s, reg, d) == s
  {
  }

  /** Writing the same byte twice in a row is writing it once, for every register. */
  lemma AfterWriteIdempotent(s: RtcState, reg: u8, d: bv8)
    requires s.Valid()
    ensures AfterWrite(AfterWrite(s, reg, d), reg, d) == AfterWrite(s, reg, d)
  {
    var s1 := AfterWrite(s, reg, d);
    if reg > 0xD && !Repeated(s, reg, d) {
      var e := s.store;
      var e1 := Set(e, reg, d);
      if e.Routed() {
        GetSet(e, reg, d);
        SetSame(e1, reg);
        if e.External() {
          assert e1.external[e.Address(reg) := d] == e1.external;
        } else {
          assert e1.core[reg := d] == e1.core;
        }
      }
    }
  }

  /** The status registers 0xC and 0xD are read-only. */
  lemma ReadOnlyRegisters(s: RtcState, reg: u8, d: bv8)
    requires s.Valid() && (reg == 0xC || reg == 0xD) && !Repeated(s, reg, d)
    ensures AfterWrite(s, reg, d) == s.(lastReg := reg, lastData := d)
  {
  }

  /** A clock register stores the decoded byte and nothing else in the clock moves. */
  lemma TimeWrite(s: RtcState, reg: u8, d: bv8)
    requires s.Valid() && reg < 10 && !Repeated(s, reg, d)
    ensures var r := AfterWrite(s, reg, d);
      && r.store == s.store && r.lastReg == reg && r.lastData == d
      && r.clock.isBcd == s.clock.isBcd && r.clock.is24h == s.clock.is24h
      && r.clock.time[reg] == Decode(s.clock.isBcd, d)
      && r.writes == s.writes + ClockWritesFor(reg, r.clock.time[reg])
      && (forall other: u8 :: other < 10 && other != reg ==> TimeValue(r.clock, other) == TimeValue(s.clock, other))
  {
  }

  /**
   * In 24-hour mode a clock register reads back exactly the byte written:
   * always in binary mode, and for every well-formed BCD byte in BCD mode.
   */
  lemma TimeEcho(s: RtcState, reg: u8, d: bv8)
    requires s.Valid() && reg < 10 && s.clock.is24h && !Repeated(s, reg, d)
    requires s.clock.isBcd ==> IsBcd(d)
    ensures TimeValue(AfterWrite(s, reg, d).clock, reg) == d
  {
    var c := AfterWrite(s, reg, d).clock;
    assert c == StoreTime(s.clock, reg, d);
    EncodeDecode(s.clock.isBcd, d);
  }

  /** Register 0xA goes to the EEPROM with bit 7 cleared. */
  lemma RegisterAWrite(s: RtcState, d: bv8)
    requires s.Valid() && s.store.Routed() && !Repeated(s, 0xA, d)
    ensures Get(AfterWrite(s, 0xA, d).store, 0xA) == d & 0x7F
    ensures AfterWrite(s, 0xA, d).clock == s.clock
  {
    GetSet(s.store, 0xA, RegA(d));
  }

  /**
   * Register 0xB selects BCD by its bit 2 being clear, forces 24-hour mode,
   * and lands in the EEPROM with bit 1 set and bit 7 cleared; the EEPROM is
   * written only when that differs from what it holds.
   */
  lemma RegisterBWrite(s: RtcState, d: bv8)
    requires s.Valid() && !Repeated(s, 0xB, d)
    ensures var r := AfterWrite(s, 0xB, d);
      && r.clock.isBcd == (d & 0x04 == 0) && r.clock.is24h
      && (s.store.Routed() ==> Get(r.store, 0xB) == (d | 0x02) & 0x7F)
      && (Get(s.store, 0xB) == (d | 0x02) & 0x7F ==> r.store == s.store)
  {
    if s.store.Routed() {
      GetSet(s.store, 0xB, RegB(d));
    }
  }

  /** Every register above 0xD is an EEPROM byte written through unchanged. */
  lemma EepromWriteThrough(s: RtcState, reg: u8, d: bv8)
    requires s.Valid() && reg > 0xD
    ensures var r := AfterWrite(s, reg, d);
      && r.clock == s.clock && r.writes == s.writes
      && r.store == Set(s.store, reg, d)
      && (s.store.Routed() ==> Get(r.store, reg) == d)
  {
    if s.store.Routed() {
      GetSet(s.store, reg, d);
    }
  }

  /** 24-hour mode, once on, stays on: no write turns it off. */
  lemma Always24h(s: RtcState, reg: u8, d: bv8)
    requires s.Valid() && s.clock.is24h
    ensures AfterWrite(s, reg, d).clock.is24h
  {
  }

  // ---------------------------------------------------------------------
  // sendTime / sendAll
  // ---------------------------------------------------------------------

  /** `send(reg, d)`: the frame handed to the `action` callback. */
  function Frame(reg: u8, d: bv8): SpiFrame
  {
    SpiFrame(CMD_RTC, Byte(reg), d)
  }

  /** The seven frames of `sendTime`: the clock registers without the alarms. */
  function TimeFrames(c: ClockRegs): (f: seq<SpiFrame>)
    requires c.Valid()
    ensures |f| == 7
    ensures forall k :: 0 <= k < 7 ==> f[k].cmd == CMD_RTC
  {
    [Frame(SECONDS, TimeValue(c, SECONDS)), Frame(MINUTES, TimeValue(c, MINUTES)),
     Frame(HOURS, TimeValue(c, HOURS)), Frame(WEEK, TimeValue(c, WEEK)), Frame(DAY, TimeValue(c, DAY)),
     Frame(MONTH, TimeValue(c, MONTH)), Frame(YEAR, TimeValue(c, YEAR))]
  }

  /** `sendTime` reports every clock register except the three alarms. */
  lemma TimeFramesCover(c: ClockRegs, reg: u8)
    requires c.Valid() && reg < 10 && reg != 1 && reg != 3 && reg != 5
    ensures Frame(reg, TimeValue(c, reg)) in TimeFrames(c)
  {
    var f := TimeFrames(c);
    if reg == 0 { assert f[0] == Frame(0, TimeValue(c, 0)); }
    else if reg == 2 { assert f[1] == Frame(2, TimeValue(c, 2)); }
    else if reg == 4 { assert f[2] == Frame(4, TimeValue(c, 4)); }
    else if reg == 6 { assert f[3] == Frame(6, TimeValue(c, 6)); }
    else if reg == 7 { assert f[4] == Frame(7, TimeValue(c, 7)); }
    else if reg == 8 { assert f[5] == Frame(8, TimeValue(c, 8)); }
    else { assert f[6] == Frame(9, TimeValue(c, 9)); }
  }

  /**
   * In binary 24-hour mode, a write to a clock register followed by
   * `sendTime` sends the written byte back on that register.
   */
  lemma WriteThenSendTime(s: RtcState, reg: u8, d: bv8)
    requires s.Valid() && s.clock.is24h && !s.clock.isBcd && !Repeated(s, reg, d)
    requires reg < 10 && reg != 1 && reg != 3 && reg != 5
    ensures Frame(reg, d) in TimeFrames(AfterWrite(s, reg, d).clock)
  {
    TimeEcho(s, reg, d);
    TimeFramesCover(AfterWrite(s, reg, d).clock, reg);
  }

  /** The byte `sendAll` reports for register `reg`. */
  function RegValue(c: ClockRegs, e: Eeprom, reg: u8): bv8
    requires c.Valid() && e.Valid()
  {
    if reg < 10 then TimeValue(c, reg)
    else if reg == 0xA then Get(e, reg) & 0x7F
    else if reg == 0xB then Get(e, reg) | 0x02
    else if reg == 0xC then 0x00
    else if reg == 0xD then 0x80
    else Get(e, reg)
  }

  /** The frames `sendAll` emits for one register: EEPROM registers go out twice. */
  function RegFrames(c: ClockRegs, e: Eeprom, reg: u8): seq<SpiFrame>
    requires c.Valid() && e.Valid()
  {
    var f := Frame(reg, RegValue(c, e, reg));
    if reg > 0xD then [f, f] else [f]
  }

  /** What `sendAll` reports, register by register. */
  lemma RegFramesShape(c: ClockRegs, e: Eeprom, reg: u8)
    requires c.Valid() && e.Valid()
    ensures var f := RegFrames(c, e, reg);
      && (reg < 10 ==> f == [Frame(reg, TimeValue(c, reg))])
      && (reg == 0xA ==> f == [Frame(reg, Get(e, reg) & 0x7F)])
      && (reg == 0xB ==> f == [Frame(reg, Get(e, reg) | 0x02)])
      && (reg == 0xC ==> f == [Frame(reg, 0x00)])
      && (reg == 0xD ==> f == [Frame(reg, 0x80)])
      && (reg > 0xD ==> f == [Frame(reg, Get(e, reg)), Frame(reg, Get(e, reg))])
  {
  }

  /** The frames for registers 0 .. n-1, in register order. */
  function AllFrames(c: ClockRegs, e: Eeprom, n: nat): seq<SpiFrame>
    requires c.Valid() && e.Valid()
  {
    if n == 0 || n > 256 then [] else AllFrames(c, e, n - 1) + RegFrames(c, e, n - 1)
  }

  /** Register k's frames follow those of registers 0 .. k-1 in every longer run. */
  lemma {:induction false} AllFramesOrder(c: ClockRegs, e: Eeprom, k: nat, n: nat)
    requires c.Valid() && e.Valid() && k < n <= 256
    ensures AllFrames(c, e, k) + RegFrames(c, e, k) <= AllFrames(c, e, n)
  {
    if k + 1 < n {
      AllFramesOrder(c, e, k, n - 1);
    }
  }

  /** Each register adds one or two frames, so a full pass is at least 256 frames long. */
  lemma {:induction false} AllFramesLength(c: ClockRegs, e: Eeprom, n: nat)
    requires c.Valid() && e.Valid() && n <= 256
    ensures n <= |AllFrames(c, e, n)| <= 2 * n
  {
    if n > 0 {
      AllFramesLength(c, e, n - 1);
    }
  }

  // ---------------------------------------------------------------------
  // The RTC object
  // ---------------------------------------------------------------------

  /** A reading of the DS3231, with the year already reduced as `get_year` does. */
  datatype DateTime = DateTime(year: bv8, month: bv8, day: bv8, week: bv8, hour: bv8, minute: bv8, second: bv8)

  /** The calls `save()` makes into the DS3231 driver, in its order. */
  function SaveWrites(c: ClockRegs): (w: seq<ClockWrite>)
    requires c.Valid()
    ensures |w| == 8 && w[0] == SetClockMode(false)
  {
    [SetClockMode(false), SetDate(c.time[DAY]), SetMonth(c.time[MONTH]), SetYear(c.time[YEAR]),
     SetDoW(c.time[WEEK]), SetHour(c.time[HOURS]), SetMinute(c.time[MINUTES]), SetSecond(c.time[SECONDS])]
  }

  /** `handle` polls the clock when 500 ms have passed on the wrapping 32-bit millisecond counter. */
  predicate PollDue(now: nat, last: nat)
  {
    (now - last) % 0x1_0000_0000 >= 500
  }

  class Rtc {
    /** `rtc_seconds`, `rtc_seconds_alarm`, ... `rtc_year`, in register order. */
    var time: seq<bv8>
    var isBcd: bool
    var is24h: bool
    var lastWriteReg: int
    var lastWriteData: bv8
    var hasEeprom: bool
    var eepromBank: u8
    var external: seq<bv8>
    var coreEeprom: seq<bv8>
    var isStarted: bool
    /** Time of the last poll, in milliseconds. */
    var tr: nat
    /** Calls made into the DS3231 driver. */
    var clockWrites: seq<ClockWrite>
    /** The `action` callback towards the FPGA. */
    const out: Channel

    ghost predicate Valid()
      reads this
    {
      |time| == 10 && Store().Valid() && is24h && tr < 0x1_0000_0000
    }

    function Clock(): (c: ClockRegs)
      reads this
    {
      ClockRegs(time, isBcd, is24h)
    }

    function Store(): Eeprom
      reads this
    {
      Eeprom(hasEeprom, eepromBank, external, coreEeprom)
    }

    function State(): RtcState
      reads this
    {
      RtcState(Clock(), lastWriteReg, lastWriteData, Store(), clockWrites)
    }

    /** The field initialisers of `RTC.h`; the EEPROM contents and bank come from outside. */
    constructor (out: Channel, bank: u8, external: seq<bv8>, coreEeprom: seq<bv8>)
      requires |external| == 1024 && |coreEeprom| == 256
      ensures Valid() && !isStarted && clockWrites == [] && tr == 0 && this.out == out
      ensures Clock() == ClockRegs([0, 0, 0, 0, 0, 0, 1, 1, 0, 0], false, true)
      ensures lastWriteReg == 0 && lastWriteData == 0
      ensures Store() == Eeprom(false, bank, external, coreEeprom)
    {
      time := [0, 0, 0, 0, 0, 0, 1, 1, 0, 0];
      isBcd, is24h := false, true;
      lastWriteReg, lastWriteData := 0, 0;
      hasEeprom, eepromBank := false, bank;
      this.external, this.coreEeprom := external, coreEeprom;
      isStarted, tr := false, 0;
      clockWrites := [];
      this.out := out;
    }

    /** `send`: one `CMD_RTC` frame to the FPGA. */
    method Send(reg: u8, d: bv8)
      modifies out
      ensures out.frames == old(out.frames) + [Frame(reg, d)]
    {
      out.Send(Frame(reg, d));
    }

    method GetEepromReg(reg: u8) returns (r: bv8)
      requires Valid()
      ensures r == Get(Store(), reg)
    {
      if hasEeprom && eepromBank < 4 {
        r := external[eepromBank * 256 + reg];
      } else if eepromBank >= 4 && eepromBank < 255 {
        r := coreEeprom[reg];
      } else {
        r := 0xFF;
      }
    }

    method SetEepromReg(reg: u8, val: bv8)
      requires Valid()
      modifies this
      ensures Valid() && Store() == Set(old(Store()), reg, val)
      ensures Clock() == old(Clock()) && lastWriteReg == old(lastWriteReg) && lastWriteData == old(lastWriteData)
      ensures clockWrites == old(clockWrites) && isStarted == old(isStarted) && tr == old(tr)
    {
      if hasEeprom && eepromBank < 4 {
        external := external[eepromBank * 256 + reg := val];
      } else if eepromBank >= 4 && eepromBank < 255 {
        coreEeprom := coreEeprom[reg := val];
      }
    }

    method SetEepromBank(val: u8)
      requires Valid()
      modifies this
      ensures Valid() && Store() == old(Store()).(bank := val)
      ensures Clock() == old(Clock()) && lastWriteReg == old(lastWriteReg) && lastWriteData == old(lastWriteData)
      ensures clockWrites == old(clockWrites) && isStarted == old(isStarted) && tr == old(tr)
    {
      eepromBank := val;
    }

    /** `setData`: the guest writes `d` to register `reg`. */
    method SetData(reg: u8, d: bv8)
      requires Valid()
      modifies this
      ensures Valid() && State() == AfterWrite(old(State()), reg, d)
      ensures isStarted == old(isStarted) && tr == old(tr)
    {
      if lastWriteReg == reg && lastWriteData == d && reg <= 0xD {
        return;
      }
      lastWriteReg := reg;
      lastWriteData := d;
      if reg < 10 {
        WriteClock(reg, d);
      } else if reg == 0xA {
        SetEepromReg(reg, d & 0x7F);
      } else if reg == 0xB {
        WriteControl(d);
      } else if reg > 0xD {
        SetEepromReg(reg, d);
      }
    }

    /** The clock-register cases of `setData`. */
    method WriteClock(reg: u8, d: bv8)
      requires Valid() && reg < 10
      modifies this
      ensures Valid()
      ensures State() == old(State()).(clock := StoreTime(old(Clock()), reg, d),
                                       writes := old(clockWrites) + ClockWritesFor(reg, Decode(old(isBcd), d)))
      ensures isStarted == old(isStarted) && tr == old(tr)
    {
      var v := if isBcd then Bcd2Bin(d) else d;
      time := time[reg := v];
      clockWrites := clockWrites + ClockWritesFor(reg, v);
    }

    /** The register 0xB case of `setData`. */
    method WriteControl(d: bv8)
      requires Valid()
      modifies this
      ensures Valid()
      ensures State() == old(State()).(clock := old(Clock()).(isBcd := d & 0x04 == 0, is24h := true),
                                       store := if Get(old(Store()), 0xB) != RegB(d) then Set(old(Store()), 0xB, RegB(d))
                                                else old(Store()))
      ensures isStarted == old(isStarted) && tr == old(tr)
    {
      isBcd := d & 0x04 == 0;
      is24h := true;
      var data := (d | 0x02) & 0x7F;
      var prev := GetEepromReg(0xB);
      if prev != data {
        SetEepromReg(0xB, data);
      }
    }

    /** One register value as `sendTime` and `sendAll` encode it. */
    method TimeByte(reg: u8) returns (data: bv8)
      requires Valid() && reg < 10
      ensures data == TimeValue(Clock(), reg)
    {
      data := time[reg];
      if reg == HOURS || reg == HOURS_ALARM {
        data := if is24h then data else TimeTo12h(data);
      }
      if isBcd {
        data := Bin2Bcd(data);
      }
    }

    /** `sendTime`: the seven clock registers, alarms excluded. */
    method SendTime()
      requires Valid()
      modifies out
      ensures out.frames == old(out.frames) + TimeFrames(Clock())
    {
      var c := Clock();
      var s, m, h, w := TimeValue(c, SECONDS), TimeValue(c, MINUTES), TimeValue(c, HOURS), TimeValue(c, WEEK);
      var d, mo, y := TimeValue(c, DAY), TimeValue(c, MONTH), TimeValue(c, YEAR);
      ghost var f0 := out.frames;
      Send(SECONDS, s);
      Send(MINUTES, m);
      Send(HOURS, h);
      Send(WEEK, w);
      Send(DAY, d);
      Send(MONTH, mo);
      Send(YEAR, y);
      assert out.frames == f0 + [Frame(SECONDS, s), Frame(MINUTES, m), Frame(HOURS, h), Frame(WEEK, w),
                                 Frame(DAY, d), Frame(MONTH, mo), Frame(YEAR, y)];
    }

    /** The byte the `sendAll` switch picks for one register. */
    method RegisterByte(reg: u8) returns (data: bv8)
      requires Valid()
      ensures data == RegValue(Clock(), Store(), reg)
    {
      if reg < 10 {
        data := TimeByte(reg);
      } else if reg == 0xA {
        data := GetEepromReg(reg);
        data := data & 0x7F;
      } else if reg == 0xB {
        data := GetEepromReg(reg);
        data := data | 0x02;
      } else if reg == 0xC {
        data := 0x00;
      } else if reg == 0xD {
        data := 0x80;
      } else {
        data := GetEepromReg(reg);
      }
    }

    /** `sendAll`: every register 0..255 in order; EEPROM registers are sent twice. */
    method SendAll()
      requires Valid()
      modifies out
      ensures out.frames == old(out.frames) + AllFrames(Clock(), Store(), 256)
    {
      ghost var sent0 := out.frames;
      var reg := 0;
      while reg < 256
        invariant reg <= 256
        invariant out.frames == sent0 + AllFrames(Clock(), Store(), reg)
      {
        var data := RegisterByte(reg);
        if reg > 0xD {
          Send(reg, data);
        }
        Send(reg, data);
        reg := reg + 1;
      }
    }

    /** The clock fields loaded from a DS3231 reading. */
    function Loaded(now: DateTime): seq<bv8>
      reads this
      requires Valid()
    {
      time[YEAR := now.year][MONTH := now.month][DAY := now.day][WEEK := now.week]
          [HOURS := now.hour][MINUTES := now.minute][SECONDS := now.second]
    }

    /** `readAll`: the time from the DS3231 and the BCD flag from register 0xB's bit 2. */
    method ReadAll(now: DateTime)
      requires Valid()
      modifies this
      ensures Valid() && time == old(Loaded(now)) && isBcd == (Get(Store(), 0xB) & 0x04 == 0)
      ensures Store() == old(Store()) && lastWriteReg == old(lastWriteReg) && lastWriteData == old(lastWriteData)
      ensures clockWrites == old(clockWrites) && isStarted == old(isStarted) && tr == old(tr)
    {
      time := Loaded(now);
      var regB := GetEepromReg(0xB);
      isBcd := regB & 0x04 == 0;
      is24h := true;
    }

    /** `begin`: probe the EEPROM, force 24-hour mode on the chip, load the time. */
    method Begin(eepromAnswers: bool, now: DateTime)
      requires Valid()
      modifies this
      ensures Valid() && isStarted && Store() == old(Store()).(present := eepromAnswers)
      ensures clockWrites == old(clockWrites) + [SetClockMode(false)]
      ensures time == old(Loaded(now)) && isBcd == (Get(Store(), 0xB) & 0x04 == 0)
      ensures lastWriteReg == old(lastWriteReg) && lastWriteData == old(lastWriteData) && tr == old(tr)
    {
      hasEeprom := eepromAnswers;
      clockWrites := clockWrites + [SetClockMode(false)];
      ReadAll(now);
      isStarted := true;
    }

    method Started() returns (r: bool)
      ensures r == isStarted
    {
      r := isStarted;
    }

    /** `handle`: every 500 ms, reload the time from the DS3231 and send it to the FPGA. */
    method Handle(millis: nat, now: DateTime)
      requires Valid() && millis < 0x1_0000_0000
      modifies this, out
      ensures Valid() && Store() == old(Store()) && clockWrites == old(clockWrites) && isStarted == old(isStarted)
      ensures isBcd == old(isBcd) && lastWriteReg == old(lastWriteReg) && lastWriteData == old(lastWriteData)
      ensures !PollDue(millis, old(tr)) ==> time == old(time) && out.frames == old(out.frames) && tr == old(tr)
      ensures PollDue(millis, old(tr)) ==>
        time == old(Loaded(now)) && out.frames == old(out.frames) + TimeFrames(Clock()) && tr == millis
    {
      if (millis - tr) % 0x1_0000_0000 >= 500 {
        time := Loaded(now);
        SendTime();
        tr := millis;
      }
    }

    /** `save`: every time field written back to the DS3231. */
    method Save()
      requires Valid()
      modifies this
      ensures Valid() && clockWrites == old(clockWrites) + SaveWrites(Clock())
      ensures Clock() == old(Clock()) && Store() == old(Store())
      ensures lastWriteReg == old(lastWriteReg) && lastWriteData == old(lastWriteData)
      ensures isStarted == old(isStarted) && tr == old(tr)
    {
      clockWrites := clockWrites + [SetClockMode(false), SetDate(time[DAY]), SetMonth(time[MONTH]),
                                    SetYear(time[YEAR]), SetDoW(time[WEEK]), SetHour(time[HOURS]),
                                    SetMinute(time[MINUTES]), SetSecond(time[SECONDS])];
    }

    /** `getWeek`, `getHour`, ... `getYear`: the field behind clock register `reg`. */
    method GetTimeField(reg: u8) returns (v: bv8)
      requires Valid() && reg < 10
      ensures v == Clock().time[reg]
    {
      v := time[reg];
    }

    /** `setWeek`, `setHour`, ... `setYear`: one clock field replaced, everything else kept. */
    method SetTimeField(reg: u8, val: bv8)
      requires Valid() && reg < 10
      modifies this
      ensures Valid() && Clock().time == old(Clock().time)[reg := val]
      ensures isBcd == old(isBcd) && Store() == old(Store()) && clockWrites == old(clockWrites)
      ensures lastWriteReg == old(lastWriteReg) && lastWriteData == old(lastWriteData)
      ensures isStarted == old(isStarted) && tr == old(tr)
    {
      time := time[reg := val];
    }
  }
}
