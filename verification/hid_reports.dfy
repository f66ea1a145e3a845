// USB HID input reports as the firmware reads them: the boot keyboard and
// boot mouse layouts of Appendix B of the USB Device Class Definition for
// HID 1.11 (with the wheel byte after x and y), the gamepad layout of the
// USB host stack, the report-ID lookup of a generic report, and which handler
// a report goes to.

module HidReports {
  import opened Common

  /** `hid_keyboard_report_t`: the modifier byte and six keycode slots. */
  datatype KbdReport = KbdReport(modifier: bv8, keycode: seq<bv8>)

  predicate WellFormed(r: KbdReport)
  {
    |r.keycode| == 6
  }

  /** `hid_mouse_report_t`: buttons, x, y and wheel (signed bytes kept as their bits). */
  datatype MouseReport = MouseReport(buttons: bv8, x: bv8, y: bv8, wheel: bv8)

  /** `hid_gamepad_report_t`: the hat switch and the 32 button bits. */
  datatype PadReport = PadReport(hat: bv8, buttons: bv32)

  /** The all-zero reports the handlers' `prev_report` start from. */
  const NoKeys: KbdReport := KbdReport(0, [0, 0, 0, 0, 0, 0])
  const NoMouse: MouseReport := MouseReport(0, 0, 0, 0)
  const NoPad: PadReport := PadReport(0, 0)

  /** `CMD_USB_*`: the FPGA command of each kind of report. */
  const CMD_USB_KBD: bv8 := 0x01
  const CMD_USB_MOUSE: bv8 := 0x02
  const CMD_USB_GAMEPAD: bv8 := 0x03

  /** Interface protocols and the Generic Desktop usages the firmware handles. */
  const HID_ITF_PROTOCOL_KEYBOARD: nat := 1
  const HID_ITF_PROTOCOL_MOUSE: nat := 2
  const HID_USAGE_PAGE_DESKTOP: nat := 0x01
  const HID_USAGE_DESKTOP_MOUSE: nat := 0x02
  const HID_USAGE_DESKTOP_GAMEPAD: nat := 0x05
  const HID_USAGE_DESKTOP_KEYBOARD: nat := 0x06

  /** `MAX_REPORT`: report descriptions kept per interface. */
  const MAX_REPORT: nat := 4

  /** Byte `i` of a received report; the model reads zero past its end. */
  function At(b: seq<bv8>, i: nat): bv8
  {
    if i < |b| then b[i] else 0
  }

  function ParseKbd(b: seq<bv8>): (r: KbdReport)
    ensures WellFormed(r)
  {
    KbdReport(At(b, 0), [At(b, 2), At(b, 3), At(b, 4), At(b, 5), At(b, 6), At(b, 7)])
  }

  function ParseMouse(b: seq<bv8>): MouseReport
  {
    MouseReport(At(b, 0), At(b, 1), At(b, 2), At(b, 3))
  }

  /** Six axis bytes, the hat byte, then the buttons little-endian. */
  function ParsePad(b: seq<bv8>): PadReport
  {
    PadReport(At(b, 6), At(b, 7) as bv32 | (At(b, 8) as bv32 << 8) | (At(b, 9) as bv32 << 16) | (At(b, 10) as bv32 << 24))
  }

  /**
   * The frames queued for the values of one report: value `i` goes to
   * register `i` of the report's command, in order.
   */
  function Fields(cmd: bv8, data: seq<bv8>): (r: seq<SpiFrame>)
    ensures |r| == |data|
  {
    if data == [] then [] else Fields(cmd, data[..|data| - 1]) + [SpiFrame(cmd, Byte(|data| - 1), data[|data| - 1])]
  }

  /** Value `i` goes to register `i`, with the report's command. */
  lemma {:induction false} FieldsAt(cmd: bv8, data: seq<bv8>)
    ensures forall i :: 0 <= i < |data| ==> Fields(cmd, data)[i] == SpiFrame(cmd, Byte(i), data[i])
  {
    if data != [] {
      FieldsAt(cmd, data[..|data| - 1]);
    }
  }

  lemma FieldsSnoc(cmd: bv8, data: seq<bv8>, n: nat)
    requires n < |data|
    ensures Fields(cmd, data[..n + 1]) == Fields(cmd, data[..n]) + [SpiFrame(cmd, Byte(n), data[n])]
  {
    assert data[..n + 1][..n] == data[..n];
  }

  /** `tuh_hid_report_info_t`: a report ID and the usage it carries. */
  datatype ReportInfo = ReportInfo(reportId: bv8, usagePage: nat, usage: nat)

  /** A descriptor with one report and no report ID: reports carry no ID byte. */
  predicate Simple(infos: seq<ReportInfo>)
  {
    |infos| == 1 && infos[0].reportId == 0
  }

  /** The first description with the given report ID. */
  function FirstWithId(infos: seq<ReportInfo>, id: bv8): (r: Option<nat>)
    ensures r.Some? ==> r.value < |infos| && infos[r.value].reportId == id
                        && forall j :: 0 <= j < r.value ==> infos[j].reportId != id
    ensures r.None? ==> forall j :: 0 <= j < |infos| ==> infos[j].reportId != id
  {
    if infos == [] then None
    else if infos[0].reportId == id then Some(0)
    else match FirstWithId(infos[1..], id)
      case Some(k) => Some(k + 1)
      case None => None
  }

  /** Whether a report can be looked up: one with an ID byte must have that byte. */
  predicate Readable(infos: seq<ReportInfo>, report: seq<bv8>)
  {
    Simple(infos) || |report| > 0
  }

  /**
   * The description of a generic report and its payload: the only one for a
   * simple descriptor, with the whole report; otherwise the first one whose
   * ID is the report's first byte, with the bytes after it.
   */
  function Lookup(infos: seq<ReportInfo>, report: seq<bv8>): (r: Option<(ReportInfo, seq<bv8>)>)
    requires Readable(infos, report)
    ensures Simple(infos) ==> r == Some((infos[0], report))
    ensures !Simple(infos) ==> (r.Some? <==> exists i :: 0 <= i < |infos| && infos[i].reportId == report[0])
    ensures !Simple(infos) && r.Some? ==>
      r.value.1 == report[1..] && r.value.0.reportId == report[0]
      && exists i :: 0 <= i < |infos| && infos[i] == r.value.0 && forall j :: 0 <= j < i ==> infos[j].reportId != report[0]
  {
    if Simple(infos) then Some((infos[0], report))
    else match FirstWithId(infos, report[0])
      case Some(i) => Some((infos[i], report[1..]))
      case None => None
  }

  /** The three report handlers. */
  datatype Handler = Keyboard | Mouse | Gamepad

  /** Generic Desktop keyboards, mice and gamepads have a handler; every other usage has none. */
  function HandlerFor(info: ReportInfo): (h: Option<Handler>)
    ensures h == Some(Keyboard) <==> info.usagePage == HID_USAGE_PAGE_DESKTOP && info.usage == HID_USAGE_DESKTOP_KEYBOARD
    ensures h == Some(Mouse) <==> info.usagePage == HID_USAGE_PAGE_DESKTOP && info.usage == HID_USAGE_DESKTOP_MOUSE
    ensures h == Some(Gamepad) <==> info.usagePage == HID_USAGE_PAGE_DESKTOP && info.usage == HID_USAGE_DESKTOP_GAMEPAD
  {
    if info.usagePage != HID_USAGE_PAGE_DESKTOP then None
    else if info.usage == HID_USAGE_DESKTOP_KEYBOARD then Some(Keyboard)
    else if info.usage == HID_USAGE_DESKTOP_MOUSE then Some(Mouse)
    else if info.usage == HID_USAGE_DESKTOP_GAMEPAD then Some(Gamepad)
    else None
  }

  /**
   * The report-ID search of `process_generic_report`: the loop over the
   * descriptions that stops at the first match.
   */
  method FindReport(infos: seq<ReportInfo>, report: seq<bv8>) returns (r: Option<(ReportInfo, seq<bv8>)>)
    requires Readable(infos, report)
    ensures r == Lookup(infos, report)
  {
    if |infos| == 1 && infos[0].reportId == 0 {
      return Some((infos[0], report));
    }
    var id := report[0];
    var i := 0;
    while i < |infos|
      invariant 0 <= i <= |infos|
      invariant forall j :: 0 <= j < i ==> infos[j].reportId != id
    {
      if infos[i].reportId == id {
        FirstIsFirst(infos, id, i);
        return Some((infos[i], report[1..]));
      }
      i := i + 1;
    }
    return None;
  }

  /** A match with no match before it is the first match. */
  lemma FirstIsFirst(infos: seq<ReportInfo>, id: bv8, i: nat)
    requires i < |infos| && infos[i].reportId == id
    requires forall j :: 0 <= j < i ==> infos[j].reportId != id
    ensures FirstWithId(infos, id) == Some(i)
  {
  }
}
