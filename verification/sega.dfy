// The two Sega pads behind a pair of 8-bit shift registers. One poll runs
// eight select cycles; each cycle latches the 16 pin levels (bits 0..7 for the
// left pad, 8..15 for the right one) and decodes the cycle's buttons into the
// pad's state word, whose `SC_*` bits the menus test.

module Sega {

  const SC_CYCLES: nat := 8
  const SC_READ_DELAY_MS: nat := 5

  /**
   * A pad's state word, one field per bit: `SC_CTL_ON` (the pad answered)
   * and the `SC_BTN_*` buttons.
   */
  datatype Buttons = Buttons(on: bool, up: bool, down: bool, left: bool, right: bool, start: bool,
                             a: bool, b: bool, c: bool, x: bool, y: bool, z: bool, mode: bool)

  /** The word with no bit set. */
  const NoButtons := Buttons(false, false, false, false, false, false, false, false, false, false, false, false, false)

  /** One pad: its state word and whether it answered as a six-button pad. */
  datatype Pad = Pad(state: Buttons, six: bool)

  /** `bitRead(reading, k) == LOW` for a pad's own eight pins (level true = HIGH). */
  predicate Low(pins: seq<bool>, k: nat)
    requires |pins| == 8 && k < 8
  {
    !pins[k]
  }

  /**
   * What select cycle `cycle` adds to one pad, given that pad's eight pin
   * levels: cycle 2 detects the pad and reads A / Start, cycle 3 reads the
   * directions, B and C, cycle 4 detects six-button mode, cycle 5 reads X, Y,
   * Z and Mode of a six-button pad; the other cycles only clock the pad.
   */
  function PadCycle(p: Pad, cycle: nat, pins: seq<bool>): Pad
    requires |pins| == 8
  {
    var s := p.state;
    if cycle == 2 then
      var on := s.on || (Low(pins, 2) && Low(pins, 3));
      if on then Pad(s.(on := on, a := s.a || Low(pins, 4), start := s.start || Low(pins, 5)), p.six)
      else Pad(s, p.six)
    else if cycle == 3 then
      Pad(s.(up := s.up || Low(pins, 0), down := s.down || Low(pins, 1), left := s.left || Low(pins, 2),
             right := s.right || Low(pins, 3), b := s.b || Low(pins, 4), c := s.c || Low(pins, 5)), p.six)
    else if cycle == 4 then
      Pad(s, Low(pins, 0) && Low(pins, 1))
    else if cycle == 5 && p.six then
      Pad(s.(z := s.z || Low(pins, 0), y := s.y || Low(pins, 1), x := s.x || Low(pins, 2),
             mode := s.mode || Low(pins, 3)), p.six)
    else p
  }

  /** The cycles that only clock the pad change nothing. */
  lemma QuietCycles(p: Pad, cycle: nat, pins: seq<bool>)
    requires |pins| == 8 && (cycle == 0 || cycle == 1 || cycle == 6 || cycle == 7)
    ensures PadCycle(p, cycle, pins) == p
  {
  }

  /** The 16 levels `readPins` samples, as the bits of the returned word: sample k is bit 15 - k. */
  function Pins(samples: seq<bool>): (w: seq<bool>)
    requires |samples| == 16
    ensures |w| == 16
  {
    seq(16, b requires 0 <= b < 16 => samples[15 - b])
  }

  /** The left pad's pins (bits 0..7) or the right pad's (bits 8..15) of a reading. */
  function Side(reading: seq<bool>, left: bool): (pins: seq<bool>)
    requires |reading| == 16
    ensures |pins| == 8
  {
    if left then reading[..8] else reading[8..]
  }

  /** Cycle c's pins of one pad. */
  function CyclePins(samples: seq<seq<bool>>, left: bool, c: nat): (pins: seq<bool>)
    requires c < |samples| && |samples[c]| == 16
    ensures |pins| == 8
  {
    Side(Pins(samples[c]), left)
  }

  /** The first `n` cycles of a poll run over one pad. */
  function Run(p: Pad, samples: seq<seq<bool>>, left: bool, n: nat): Pad
    requires n <= |samples| && forall c :: 0 <= c < |samples| ==> |samples[c]| == 16
  {
    if n == 0 then p
    else PadCycle(Run(p, samples, left, n - 1), n - 1, CyclePins(samples, left, n - 1))
  }

  /** A full poll of one pad: cleared state, eight cycles, six-button mode dropped for an absent pad. */
  function Poll(six: bool, samples: seq<seq<bool>>, left: bool): Pad
    requires |samples| == SC_CYCLES && forall c :: 0 <= c < SC_CYCLES ==> |samples[c]| == 16
  {
    var p := Run(Pad(NoButtons, six), samples, left, SC_CYCLES);
    if p.state.on then p else Pad(p.state, false)
  }

  /** Cycles 2..5 applied in turn: the only cycles of a poll that read buttons. */
  function Cycles(p: Pad, r2: seq<bool>, r3: seq<bool>, r4: seq<bool>, r5: seq<bool>): Pad
    requires |r2| == |r3| == |r4| == |r5| == 8
  {
    PadCycle(PadCycle(PadCycle(PadCycle(p, 2, r2), 3, r3), 4, r4), 5, r5)
  }

  /** A poll's eight cycles reduce to cycles 2..5. */
  lemma {:induction false} RunCycles(p: Pad, samples: seq<seq<bool>>, left: bool)
    requires |samples| == SC_CYCLES && forall c :: 0 <= c < SC_CYCLES ==> |samples[c]| == 16
    ensures Run(p, samples, left, SC_CYCLES)
              == Cycles(p, CyclePins(samples, left, 2), CyclePins(samples, left, 3),
                        CyclePins(samples, left, 4), CyclePins(samples, left, 5))
  {
    QuietCycles(p, 0, CyclePins(samples, left, 0));
    assert Run(p, samples, left, 1) == p;
    QuietCycles(p, 1, CyclePins(samples, left, 1));
    assert Run(p, samples, left, 2) == p;
    var q2 := PadCycle(p, 2, CyclePins(samples, left, 2));
    assert Run(p, samples, left, 3) == q2;
    var q3 := PadCycle(q2, 3, CyclePins(samples, left, 3));
    assert Run(p, samples, left, 4) == q3;
    var q4 := PadCycle(q3, 4, CyclePins(samples, left, 4));
    assert Run(p, samples, left, 5) == q4;
    var q5 := PadCycle(q4, 5, CyclePins(samples, left, 5));
    assert Run(p, samples, left, 6) == q5;
    QuietCycles(q5, 6, CyclePins(samples, left, 6));
    assert Run(p, samples, left, 7) == q5;
    QuietCycles(q5, 7, CyclePins(samples, left, 7));
  }

  /**
   * The outcome of a poll stated directly, bit by bit, from one pad's pins in
   * cycles 2..5, independently of the cycle-by-cycle decoding.
   */
  function Decoded(r2: seq<bool>, r3: seq<bool>, r4: seq<bool>, r5: seq<bool>): Pad
    requires |r2| == |r3| == |r4| == |r5| == 8
  {
    var on := Low(r2, 2) && Low(r2, 3);
    var six := Low(r4, 0) && Low(r4, 1);
    Pad(Buttons(on, Low(r3, 0), Low(r3, 1), Low(r3, 2), Low(r3, 3), on && Low(r2, 5), on && Low(r2, 4),
                Low(r3, 4), Low(r3, 5), six && Low(r5, 2), six && Low(r5, 1), six && Low(r5, 0), six && Low(r5, 3)),
        six && on)
  }

  /**
   * A full poll of one pad computes `Decoded`: connected iff pins 2 and 3 are
   * low in cycle 2; A and Start only on a connected pad; the directions, B and
   * C from cycle 3 whether or not the pad answered; six-button mode iff pins 0
   * and 1 are low in cycle 4, kept only for a connected pad; X, Y, Z and Mode
   * from cycle 5 only in that mode (and then even for a pad that did not
   * answer in cycle 2). The previous poll's six-button flag plays no part.
   */
  lemma PollDecoded(six: bool, samples: seq<seq<bool>>, left: bool)
    requires |samples| == SC_CYCLES && forall c :: 0 <= c < SC_CYCLES ==> |samples[c]| == 16
    ensures Poll(six, samples, left)
              == Decoded(CyclePins(samples, left, 2), CyclePins(samples, left, 3),
                         CyclePins(samples, left, 4), CyclePins(samples, left, 5))
  {
    RunCycles(Pad(NoButtons, six), samples, left);
  }

  /** The previous six-button flag has no influence on a poll's outcome. */
  lemma PollForgets(samples: seq<seq<bool>>, left: bool)
    requires |samples| == SC_CYCLES && forall c :: 0 <= c < SC_CYCLES ==> |samples[c]| == 16
    ensures Poll(false, samples, left) == Poll(true, samples, left)
  {
    PollDecoded(false, samples, left);
    PollDecoded(true, samples, left);
  }

  /** A pad that did not answer in cycle 2 reports neither A, Start nor six-button mode. */
  lemma AbsentPad(six: bool, samples: seq<seq<bool>>, left: bool)
    requires |samples| == SC_CYCLES && forall c :: 0 <= c < SC_CYCLES ==> |samples[c]| == 16
    ensures var p := Poll(six, samples, left);
            !p.state.on ==> !p.state.a && !p.state.start && !p.six
  {
    PollDecoded(six, samples, left);
  }

  /** The left pad's outcome depends on bits 0..7 of each reading only, the right pad's on bits 8..15. */
  lemma PollSides(six: bool, samples: seq<seq<bool>>, other: seq<seq<bool>>, left: bool)
    requires |samples| == |other| == SC_CYCLES
    requires forall c :: 0 <= c < SC_CYCLES ==> |samples[c]| == |other[c]| == 16
    requires forall c :: 0 <= c < SC_CYCLES ==> CyclePins(samples, left, c) == CyclePins(other, left, c)
    ensures Poll(six, samples, left) == Poll(six, other, left)
  {
    PollDecoded(six, samples, left);
    PollDecoded(six, other, left);
  }

  /** `getState` polls again only once `SC_READ_DELAY_MS` have passed on the wrapping millisecond counter. */
  predicate PollDue(now: nat, last: nat)
  {
    (now - last) % 0x1_0000_0000 >= SC_READ_DELAY_MS
  }

  class SegaController {
    var stateL: Buttons
    var stateR: Buttons
    var sixButtonModeL: bool
    var sixButtonModeR: bool
    var lastReadTime: nat

    function LeftPad(): Pad
      reads this
    {
      Pad(stateL, sixButtonModeL)
    }

    function RightPad(): Pad
      reads this
    {
      Pad(stateR, sixButtonModeR)
    }

    /** `begin`, without the pin set-up: nothing pressed, three-button mode, never read. */
    constructor ()
      ensures LeftPad() == Pad(NoButtons, false) && RightPad() == Pad(NoButtons, false) && lastReadTime == 0
    {
      stateL, stateR := NoButtons, NoButtons;
      sixButtonModeL, sixButtonModeR := false, false;
      lastReadTime := 0;
    }

    /** `readPins`: sixteen data-pin samples shifted in, the first one landing in bit 15. */
    static method ReadPins(samples: seq<bool>) returns (reading: seq<bool>)
      requires |samples| == 16
      ensures reading == Pins(samples)
    {
      reading := seq(16, _ => false);
      var i := 16;
      while i > 0
        invariant 0 <= i <= 16 && |reading| == 16
        invariant forall b :: 0 <= b < i ==> !reading[b]
        invariant forall b :: i <= b < 16 ==> reading[b] == samples[15 - b]
      {
        if samples[16 - i] {
          reading := reading[i - 1 := true];
        }
        i := i - 1;
      }
    }

    /** `readCycle`: one select cycle decoded into both pads. */
    method ReadCycle(cycle: nat, samples: seq<bool>)
      requires cycle < SC_CYCLES && |samples| == 16
      modifies this
      ensures LeftPad() == PadCycle(old(LeftPad()), cycle, Side(Pins(samples), true))
      ensures RightPad() == PadCycle(old(RightPad()), cycle, Side(Pins(samples), false))
      ensures lastReadTime == old(lastReadTime)
    {
      var reading := ReadPins(samples);
      var l, r := LeftPad(), RightPad();
      var pl, pr := reading[..8], reading[8..];
      if cycle == 2 {
        l := Cycle2(l, pl);
        r := Cycle2(r, pr);
      } else if cycle == 3 {
        l := Cycle3(l, pl);
        r := Cycle3(r, pr);
      } else if cycle == 4 {
        l := Cycle4(l, pl);
        r := Cycle4(r, pr);
      } else if cycle == 5 {
        l := Cycle5(l, pl);
        r := Cycle5(r, pr);
      }
      stateL, sixButtonModeL := l.state, l.six;
      stateR, sixButtonModeR := r.state, r.six;
    }

    /** Case 2 of `readCycle` for one pad (`pins[k]` is bit k, or bit k + 8 for the right pad). */
    static method Cycle2(p: Pad, pins: seq<bool>) returns (q: Pad)
      requires |pins| == 8
      ensures q == PadCycle(p, 2, pins)
    {
      var s := p.state;
      var on := s.on || (!pins[2] && !pins[3]);
      if on {
        q := Pad(s.(on := on, a := s.a || !pins[4], start := s.start || !pins[5]), p.six);
      } else {
        q := Pad(s, p.six);
      }
    }

    /** Case 3 of `readCycle` for one pad. */
    static method Cycle3(p: Pad, pins: seq<bool>) returns (q: Pad)
      requires |pins| == 8
      ensures q == PadCycle(p, 3, pins)
    {
      var s := p.state;
      q := Pad(s.(up := s.up || !pins[0], down := s.down || !pins[1], left := s.left || !pins[2],
                  right := s.right || !pins[3], b := s.b || !pins[4], c := s.c || !pins[5]), p.six);
    }

    /** Case 4 of `readCycle` for one pad. */
    static method Cycle4(p: Pad, pins: seq<bool>) returns (q: Pad)
      requires |pins| == 8
      ensures q == PadCycle(p, 4, pins)
    {
      q := Pad(p.state, !pins[0] && !pins[1]);
    }

    /** Case 5 of `readCycle` for one pad. */
    static method Cycle5(p: Pad, pins: seq<bool>) returns (q: Pad)
      requires |pins| == 8
      ensures q == PadCycle(p, 5, pins)
    {
      var s := p.state;
      if p.six {
        q := Pad(s.(z := s.z || !pins[0], y := s.y || !pins[1], x := s.x || !pins[2], mode := s.mode || !pins[3]), p.six);
      } else {
        q := p;
      }
    }

    /**
     * `getState(left)` at time `now`, with `later` the clock reading after the
     * eight cycles and `samples[c]` the data-pin samples of cycle c. Within
     * `SC_READ_DELAY_MS` of the last poll the cached word is returned.
     */
    method GetState(left: bool, now: nat, later: nat, samples: seq<seq<bool>>) returns (state: Buttons)
      requires |samples| == SC_CYCLES && forall c :: 0 <= c < SC_CYCLES ==> |samples[c]| == 16
      modifies this
      ensures !PollDue(now, old(lastReadTime)) ==>
        LeftPad() == old(LeftPad()) && RightPad() == old(RightPad()) && lastReadTime == old(lastReadTime)
      ensures PollDue(now, old(lastReadTime)) ==>
        && LeftPad() == Poll(old(sixButtonModeL), samples, true)
        && RightPad() == Poll(old(sixButtonModeR), samples, false)
        && lastReadTime == later
      ensures state == if left then stateL else stateR
    {
      if (now - lastReadTime) % 0x1_0000_0000 < SC_READ_DELAY_MS {
        return if left then stateL else stateR;
      }
      ghost var l0, r0 := Pad(NoButtons, sixButtonModeL), Pad(NoButtons, sixButtonModeR);
      stateL := NoButtons;
      stateR := NoButtons;
      var cycle := 0;
      while cycle < SC_CYCLES
        invariant cycle <= SC_CYCLES
        invariant LeftPad() == Run(l0, samples, true, cycle)
        invariant RightPad() == Run(r0, samples, false, cycle)
      {
        ReadCycle(cycle, samples[cycle]);
        cycle := cycle + 1;
      }
      if !stateL.on {
        sixButtonModeL := false;
      }
      if !stateR.on {
        sixButtonModeR := false;
      }
      lastReadTime := later;
      state := if left then stateL else stateR;
    }

    /** `getIsOn`: the pad answered in the last poll. */
    method GetIsOn(left: bool) returns (on: bool)
      ensures on == (if left then LeftPad() else RightPad()).state.on
    {
      on := if left then stateL.on else stateR.on;
    }

    /** `getSixButtonMode`: the pad answered as a six-button pad in the last poll. */
    method GetSixButtonMode(left: bool) returns (six: bool)
      ensures six == (if left then LeftPad() else RightPad()).six
    {
      six := if left then sixButtonModeL else sixButtonModeR;
    }
  }
}
