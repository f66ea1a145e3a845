// Types shared by every part of the firmware model.

module Common {

  datatype Option<T> = None | Some(value: T)

  /** An unsigned 8-bit quantity kept as an integer (C `uint8_t`). */
  type u8 = x: int | 0 <= x < 256

  /**
   * One three-byte message to the FPGA over the MCU-to-FPGA SPI link:
   * a command code, a register address inside that command, and a data
   * byte. The FT812 `action` callback, the RTC `send`, `spi_send` and
   * `spi_queue` all produce these; the model records them in logs.
   */
  datatype SpiFrame = SpiFrame(cmd: bv8, addr: bv8, data: bv8)

  /*
   * An unsigned integer narrowed to 8, 16 or 32 bits, i.e. taken modulo
   * 2^8, 2^16 or 2^32 as a C assignment to `uint8_t`, `uint16_t` or
   * `uint32_t` does. They are defined by counting rather than with `as`,
   * which keeps integer-to-bit-vector conversions out of the proofs: every
   * proof here only needs that equal counts give equal bits.
   */
  function Byte(n: nat): bv8
  {
    if n == 0 then 0 else Byte(n - 1) + 1
  }

  function Half(n: nat): bv16
  {
    if n == 0 then 0 else Half(n - 1) + 1
  }

  function Word(n: nat): bv32
  {
    if n == 0 then 0 else Word(n - 1) + 1
  }

  /**
   * The frames a component hands to the FPGA link, in order: the `action`
   * callback, `spi_send` or `spi_queue` of the firmware.
   */
  class Channel {
    var frames: seq<SpiFrame>

    constructor ()
      ensures frames == []
    {
      frames := [];
    }

    method Send(f: SpiFrame)
      modifies this
      ensures frames == old(frames) + [f]
    {
      frames := frames + [f];
    }
  }

  /** Regrouping appends to a log; stated once so that proofs need not rediscover it. */
  lemma AppendAssoc<T>(a: seq<T>, b: seq<T>, c: seq<T>)
    ensures a + (b + c) == (a + b) + c
  {
  }

  /** `n` copies of the byte `b`. */
  function Repeat(b: bv8, n: nat): (r: seq<bv8>)
    ensures |r| == n && forall i :: 0 <= i < n ==> r[i] == b
  {
    if n == 0 then [] else Repeat(b, n - 1) + [b]
  }

  /**
   * The items of the elements `keep` accepts, in order: a directory scan
   * that adds an entry for each file it recognises.
   */
  function Select<T, U>(xs: seq<T>, keep: T -> bool, item: T --> U): (r: seq<U>)
    requires forall k :: 0 <= k < |xs| && keep(xs[k]) ==> item.requires(xs[k])
    ensures |r| <= |xs|
  {
    if xs == [] then []
    else
      var x := xs[|xs| - 1];
      Select(xs[..|xs| - 1], keep, item) + (if keep(x) then [item(x)] else [])
  }

  /** One more element adds its item when it is kept. */
  lemma SelectSnoc<T, U>(xs: seq<T>, keep: T -> bool, item: T --> U, i: nat)
    requires forall k :: 0 <= k < |xs| && keep(xs[k]) ==> item.requires(xs[k])
    requires i < |xs|
    ensures keep(xs[i]) ==> item.requires(xs[i])
    ensures Select(xs[..i + 1], keep, item) == Select(xs[..i], keep, item) + (if keep(xs[i]) then [item(xs[i])] else [])
  {
    assert xs[..i + 1][..i] == xs[..i];
  }

  /** Every kept element has its item in the selection. */
  lemma {:induction false} SelectComplete<T, U>(xs: seq<T>, keep: T -> bool, item: T --> U, k: nat)
    requires forall j :: 0 <= j < |xs| && keep(xs[j]) ==> item.requires(xs[j])
    requires k < |xs| && keep(xs[k])
    ensures item(xs[k]) in Select(xs, keep, item)
  {
    var init := xs[..|xs| - 1];
    if k < |init| {
      SelectComplete(init, keep, item, k);
      assert xs[k] == init[k];
    }
  }

  /** Every item of the selection comes from a kept element. */
  lemma {:induction false} SelectSound<T, U>(xs: seq<T>, keep: T -> bool, item: T --> U, y: U)
    requires forall j :: 0 <= j < |xs| && keep(xs[j]) ==> item.requires(xs[j])
    requires y in Select(xs, keep, item)
    ensures exists k :: 0 <= k < |xs| && keep(xs[k]) && item.requires(xs[k]) && y == item(xs[k])
  {
    var init := xs[..|xs| - 1];
    if y in Select(init, keep, item) {
      SelectSound(init, keep, item, y);
      var k :| 0 <= k < |init| && keep(init[k]) && item.requires(init[k]) && y == item(init[k]);
      assert xs[k] == init[k];
    }
  }
}
