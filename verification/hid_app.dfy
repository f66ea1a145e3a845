// The USB host side that forwards input reports to the FPGA: each handler
// compares a report with the last one it kept and queues the report's fields
// for the FPGA when it sees a change.

module HidApp {
  import opened Common
  import opened HidReports

  /** A keyboard report is forwarded only when its modifier byte changed. */
  predicate KbdChanged(r: KbdReport, prev: KbdReport)
  {
    r.modifier ^ prev.modifier != 0
  }

  /** A mouse report is forwarded when any of its four fields changed. */
  predicate MouseChanged(r: MouseReport, prev: MouseReport)
  {
    r.x ^ prev.x != 0 || r.y ^ prev.y != 0 || r.buttons ^ prev.buttons != 0 || r.wheel ^ prev.wheel != 0
  }

  /**
   * A gamepad report is forwarded when a hat bit, or a bit of the low button
   * byte (the change mask is a `uint8_t`), went from clear to set.
   */
  predicate PadPressed(r: PadReport, prev: PadReport)
  {
    (r.hat ^ prev.hat) & r.hat != 0 || ((r.buttons ^ prev.buttons) & 0xFF) & r.buttons != 0
  }

  /** The frames of a forwarded keyboard report: the modifier, then the six keycodes. */
  function KbdFrames(r: KbdReport): seq<SpiFrame>
    requires WellFormed(r)
  {
    Fields(CMD_USB_KBD, [r.modifier] + r.keycode)
  }

  /** The frames of a forwarded mouse report: x, y, wheel, buttons. */
  function MouseFrames(r: MouseReport): seq<SpiFrame>
  {
    Fields(CMD_USB_MOUSE, [r.x, r.y, r.wheel, r.buttons])
  }

  /** The frames of a forwarded gamepad report: the hat and the low button byte. */
  function PadFrames(r: PadReport): seq<SpiFrame>
  {
    Fields(CMD_USB_GAMEPAD, [r.hat, (r.buttons & 0xFF) as bv8])
  }

  /** Keyboard changes are the modifier's alone: a change of keycodes only is not forwarded. */
  lemma KbdChangeIsModifier(r: KbdReport, prev: KbdReport)
    ensures KbdChanged(r, prev) <==> r.modifier != prev.modifier
  {
  }

  /** Bytes differ exactly where their exclusive or is not zero. */
  lemma XorNonZero(a: bv8, b: bv8)
    ensures a ^ b != 0 <==> a != b
  {
  }

  /** A mouse report is forwarded exactly when it differs from the kept one in a queued field. */
  lemma MouseChangeIsDifference(r: MouseReport, prev: MouseReport)
    ensures MouseChanged(r, prev) <==> r != prev
  {
    MouseChangeDiffers(r, prev);
    MouseDifferenceChanges(r, prev);
  }

  lemma MouseChangeDiffers(r: MouseReport, prev: MouseReport)
    ensures MouseChanged(r, prev) ==> r != prev
  {
  }

  lemma MouseDifferenceChanges(r: MouseReport, prev: MouseReport)
    ensures r != prev ==> MouseChanged(r, prev)
  {
    XorNonZero(r.x, prev.x);
    XorNonZero(r.y, prev.y);
    XorNonZero(r.buttons, prev.buttons);
    XorNonZero(r.wheel, prev.wheel);
  }

  /**
   * The gamepad test is "some bit is newly set": releases alone are not
   * forwarded, and button bits 8 to 31 never are.
   */
  lemma PadPressedIsNewlySet(r: PadReport, prev: PadReport)
    ensures PadPressed(r, prev) <==> r.hat & !prev.hat != 0 || r.buttons & !prev.buttons & 0xFF != 0
    ensures r.hat & !prev.hat == 0 && r.buttons & 0xFF == prev.buttons & 0xFF ==> !PadPressed(r, prev)
  {
  }

  /** A keyboard report goes to registers 0 (modifier) and 1 to 6 (keycodes) of its command. */
  lemma KbdFramesLayout(k: KbdReport)
    requires WellFormed(k)
    ensures |KbdFrames(k)| == 7 && KbdFrames(k)[0] == SpiFrame(CMD_USB_KBD, 0, k.modifier)
    ensures forall i :: 0 <= i < 6 ==> KbdFrames(k)[i + 1] == SpiFrame(CMD_USB_KBD, Byte(i + 1), k.keycode[i])
  {
    FieldsAt(CMD_USB_KBD, [k.modifier] + k.keycode);
  }

  /** A mouse report goes to registers 0 to 3: x, y, wheel, buttons. */
  lemma MouseFramesLayout(m: MouseReport)
    ensures MouseFrames(m) == [SpiFrame(CMD_USB_MOUSE, 0, m.x), SpiFrame(CMD_USB_MOUSE, 1, m.y),
                               SpiFrame(CMD_USB_MOUSE, 2, m.wheel), SpiFrame(CMD_USB_MOUSE, 3, m.buttons)]
  {
    FieldsAt(CMD_USB_MOUSE, [m.x, m.y, m.wheel, m.buttons]);
    assert Byte(1) == 1 && Byte(2) == 2 && Byte(3) == 3;
  }

  /** A gamepad report goes to registers 0 (hat) and 1 (low button byte). */
  lemma PadFramesLayout(p: PadReport)
    ensures PadFrames(p) == [SpiFrame(CMD_USB_GAMEPAD, 0, p.hat), SpiFrame(CMD_USB_GAMEPAD, 1, (p.buttons & 0xFF) as bv8)]
  {
    FieldsAt(CMD_USB_GAMEPAD, [p.hat, (p.buttons & 0xFF) as bv8]);
    assert Byte(1) == 1;
  }

  /** The handlers of `hid_app.cpp` with their `static prev_report` variables. */
  class HidHost {
    var prevKbd: KbdReport
    var prevMouse: MouseReport
    var prevPad: PadReport
    /** `spi_queue`. */
    const out: Channel

    constructor (out: Channel)
      ensures prevKbd == NoKeys && prevMouse == NoMouse && prevPad == NoPad && this.out == out
    {
      prevKbd := NoKeys;
      prevMouse := NoMouse;
      prevPad := NoPad;
      this.out := out;
    }

    /**
     * `process_kbd_report`: on a modifier change the seven fields are queued
     * and the report is kept; otherwise nothing happens at all.
     */
    method ProcessKbd(r: KbdReport)
      requires WellFormed(r)
      modifies this, out
      ensures prevMouse == old(prevMouse) && prevPad == old(prevPad)
      ensures KbdChanged(r, old(prevKbd)) ==> prevKbd == r && out.frames == old(out.frames) + KbdFrames(r)
      ensures !KbdChanged(r, old(prevKbd)) ==> prevKbd == old(prevKbd) && out.frames == old(out.frames)
    {
      if KbdChanged(r, prevKbd) {
        QueueKbd(r);
        prevKbd := r;
      }
    }

    /** The queueing of a changed keyboard report: the modifier, then the keycode loop. */
    method QueueKbd(r: KbdReport)
      requires WellFormed(r)
      modifies out
      ensures out.frames == old(out.frames) + KbdFrames(r)
    {
      var o := out;
      ghost var f0 := o.frames;
      ghost var data := [r.modifier] + r.keycode;
      o.Send(SpiFrame(CMD_USB_KBD, 0, r.modifier));
      assert data[..1] == [r.modifier];
      var addr: bv8 := 1;
      for i := 0 to 6
        invariant o.frames == f0 + Fields(CMD_USB_KBD, data[..i + 1])
        invariant addr == Byte(i + 1)
      {
        FieldsSnoc(CMD_USB_KBD, data, i + 1);
        assert data[i + 1] == r.keycode[i];
        AppendAssoc(f0, Fields(CMD_USB_KBD, data[..i + 1]), [SpiFrame(CMD_USB_KBD, addr, r.keycode[i])]);
        o.Send(SpiFrame(CMD_USB_KBD, addr, r.keycode[i]));
        addr := addr + 1;
      }
      assert data[..7] == data;
    }

    /** `process_mouse_report`: on any change the four fields are queued and the report is kept. */
    method ProcessMouse(r: MouseReport)
      modifies this, out
      ensures prevKbd == old(prevKbd) && prevPad == old(prevPad)
      ensures MouseChanged(r, old(prevMouse)) ==> prevMouse == r && out.frames == old(out.frames) + MouseFrames(r)
      ensures !MouseChanged(r, old(prevMouse)) ==> prevMouse == old(prevMouse) && out.frames == old(out.frames)
    {
      if MouseChanged(r, prevMouse) {
        var o := out;
        o.Send(SpiFrame(CMD_USB_MOUSE, 0, r.x));
        o.Send(SpiFrame(CMD_USB_MOUSE, 1, r.y));
        o.Send(SpiFrame(CMD_USB_MOUSE, 2, r.wheel));
        o.Send(SpiFrame(CMD_USB_MOUSE, 3, r.buttons));
        MouseFramesLayout(r);
        prevMouse := r;
      }
    }

    /**
     * `process_gamepad_report`: the hat and low button byte are queued when
     * a bit was newly set, and the report is kept in every case.
     */
    method ProcessGamepad(r: PadReport)
      modifies this, out
      ensures prevKbd == old(prevKbd) && prevMouse == old(prevMouse) && prevPad == r
      ensures out.frames == old(out.frames) + (if PadPressed(r, old(prevPad)) then PadFrames(r) else [])
    {
      if PadPressed(r, prevPad) {
        var o := out;
        o.Send(SpiFrame(CMD_USB_GAMEPAD, 0, r.hat));
        o.Send(SpiFrame(CMD_USB_GAMEPAD, 1, (r.buttons & 0xFF) as bv8));
        PadFramesLayout(r);
      }
      prevPad := r;
    }

    /**
     * `process_generic_report`: the report's description is looked up; a
     * keyboard, mouse or gamepad of the Generic Desktop page goes to its
     * handler with the payload read in that handler's layout, and anything
     * else (no description, another usage) changes nothing.
     */
    method ProcessGeneric(infos: seq<ReportInfo>, report: seq<bv8>)
      requires |infos| <= MAX_REPORT && Readable(infos, report)
      modifies this, out
      ensures GenericEffect(infos, report)
    {
      var l := FindReport(infos, report);
      if l.Some? {
        var info := l.value.0;
        if info.usagePage == HID_USAGE_PAGE_DESKTOP {
          if info.usage == HID_USAGE_DESKTOP_KEYBOARD {
            ProcessKbd(ParseKbd(l.value.1));
          } else if info.usage == HID_USAGE_DESKTOP_MOUSE {
            ProcessMouse(ParseMouse(l.value.1));
          } else if info.usage == HID_USAGE_DESKTOP_GAMEPAD {
            ProcessGamepad(ParsePad(l.value.1));
          }
        }
      }
    }

    /**
     * `tuh_hid_report_received_cb`: boot keyboards and boot mice by their
     * interface protocol, everything else as a generic report.
     */
    method ReportReceived(protocol: nat, infos: seq<ReportInfo>, report: seq<bv8>)
      requires |infos| <= MAX_REPORT && Readable(infos, report)
      modifies this, out
      ensures protocol == HID_ITF_PROTOCOL_KEYBOARD ==> KbdEffect(report)
      ensures protocol == HID_ITF_PROTOCOL_MOUSE ==> MouseEffect(report)
      ensures protocol != HID_ITF_PROTOCOL_KEYBOARD && protocol != HID_ITF_PROTOCOL_MOUSE ==> GenericEffect(infos, report)
    {
      if protocol == HID_ITF_PROTOCOL_KEYBOARD {
        ProcessKbd(ParseKbd(report));
      } else if protocol == HID_ITF_PROTOCOL_MOUSE {
        ProcessMouse(ParseMouse(report));
      } else {
        ProcessGeneric(infos, report);
      }
    }

    /**
     * The effect of `ProcessGeneric`: the looked-up payload has the effect of
     * the handler of its usage, and a report without a description or with
     * another usage has none.
     */
    twostate predicate GenericEffect(infos: seq<ReportInfo>, report: seq<bv8>)
      requires Readable(infos, report)
      reads this, out
    {
      var l := Lookup(infos, report);
      var h := if l.Some? then HandlerFor(l.value.0) else None;
      (h == Some(Keyboard) ==> KbdEffect(l.value.1))
      && (h == Some(Mouse) ==> MouseEffect(l.value.1))
      && (h == Some(Gamepad) ==> PadEffect(l.value.1))
      && (h == None ==> NoEffect())
    }

    /** The effect of `ProcessKbd` on the bytes `b`. */
    twostate predicate KbdEffect(b: seq<bv8>)
      reads this, out
    {
      var r := ParseKbd(b);
      prevMouse == old(prevMouse) && prevPad == old(prevPad)
      && (KbdChanged(r, old(prevKbd)) ==> prevKbd == r && out.frames == old(out.frames) + KbdFrames(r))
      && (!KbdChanged(r, old(prevKbd)) ==> prevKbd == old(prevKbd) && out.frames == old(out.frames))
    }

    /** The effect of `ProcessMouse` on the bytes `b`. */
    twostate predicate MouseEffect(b: seq<bv8>)
      reads this, out
    {
      var r := ParseMouse(b);
      prevKbd == old(prevKbd) && prevPad == old(prevPad)
      && (MouseChanged(r, old(prevMouse)) ==> prevMouse == r && out.frames == old(out.frames) + MouseFrames(r))
      && (!MouseChanged(r, old(prevMouse)) ==> prevMouse == old(prevMouse) && out.frames == old(out.frames))
    }

    /** The effect of `ProcessGamepad` on the bytes `b`. */
    twostate predicate PadEffect(b: seq<bv8>)
      reads this, out
    {
      var r := ParsePad(b);
      prevKbd == old(prevKbd) && prevMouse == old(prevMouse) && prevPad == r
      && out.frames == old(out.frames) + (if PadPressed(r, old(prevPad)) then PadFrames(r) else [])
    }

    twostate predicate NoEffect()
      reads this, out
    {
      prevKbd == old(prevKbd) && prevMouse == old(prevMouse) && prevPad == old(prevPad) && out.frames == old(out.frames)
    }
  }
}
