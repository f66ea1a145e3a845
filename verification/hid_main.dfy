// The report handlers of the firmware's main file: the keyboard handler
// reports every key that is newly pressed since the previous report, the
// mouse and gamepad handlers only keep the report, and generic reports are
// looked up and dispatched as in the forwarding handlers.

module HostHid {
  import opened Common
  import opened HidReports

  /** `find_key_in_report` as a fact: the keycode is in one of the six slots. */
  predicate HasKey(r: KbdReport, key: bv8)
  {
    key in r.keycode
  }

  /** The keys of the first slots that are pressed (non-zero) and were not held before, in slot order. */
  function NewKeys(keys: seq<bv8>, prev: KbdReport): (r: seq<bv8>)
    ensures |r| <= |keys|
  {
    if keys == [] then []
    else
      var k := keys[|keys| - 1];
      NewKeys(keys[..|keys| - 1], prev) + (if k != 0 && !HasKey(prev, k) then [k] else [])
  }

  /** A key is reported exactly when it is pressed now, is not zero, and was not held. */
  lemma {:induction false} NewKeysExactly(keys: seq<bv8>, prev: KbdReport, k: bv8)
    ensures k in NewKeys(keys, prev) <==> k in keys && k != 0 && !HasKey(prev, k)
  {
    if keys != [] {
      var init := keys[..|keys| - 1];
      NewKeysExactly(init, prev, k);
      assert keys == init + [keys[|keys| - 1]];
    }
  }

  /** Holding the same keys reports nothing. */
  lemma {:induction false} HeldKeysSilent(keys: seq<bv8>, prev: KbdReport)
    requires forall i :: 0 <= i < |keys| ==> keys[i] in prev.keycode
    ensures NewKeys(keys, prev) == []
  {
    if keys != [] {
      HeldKeysSilent(keys[..|keys| - 1], prev);
    }
  }

  lemma NewKeysSnoc(keys: seq<bv8>, prev: KbdReport, n: nat)
    requires n < |keys|
    ensures NewKeys(keys[..n + 1], prev)
         == NewKeys(keys[..n], prev) + (if keys[n] != 0 && !HasKey(prev, keys[n]) then [keys[n]] else [])
  {
    assert keys[..n + 1][..n] == keys[..n];
  }

  /** `find_key_in_report`: the search of the six keycode slots. */
  method FindKeyInReport(r: KbdReport, key: bv8) returns (found: bool)
    requires WellFormed(r)
    ensures found <==> HasKey(r, key)
  {
    for i := 0 to 6
      invariant forall j :: 0 <= j < i ==> r.keycode[j] != key
    {
      if r.keycode[i] == key {
        return true;
      }
    }
    return false;
  }

  /** The handlers with their `static prev_report` variables, and the keys they report. */
  class HostHandlers {
    var prevKbd: KbdReport
    var prevMouse: MouseReport
    var prevPad: PadReport
    /** Keycodes reported as newly pressed, in order. */
    var pressed: seq<bv8>

    predicate Valid()
      reads this
    {
      WellFormed(prevKbd)
    }

    constructor ()
      ensures prevKbd == NoKeys && prevMouse == NoMouse && prevPad == NoPad && pressed == [] && Valid()
    {
      prevKbd := NoKeys;
      prevMouse := NoMouse;
      prevPad := NoPad;
      pressed := [];
    }

    /**
     * `process_kbd_report`: each non-zero keycode that is not in the
     * previous report is reported; the report is then kept.
     */
    method ProcessKbd(r: KbdReport)
      requires Valid() && WellFormed(r)
      modifies this
      ensures Valid() && prevKbd == r && prevMouse == old(prevMouse) && prevPad == old(prevPad)
      ensures pressed == old(pressed) + NewKeys(r.keycode, old(prevKbd))
    {
      ghost var p0 := pressed;
      for i := 0 to 6
        invariant prevKbd == old(prevKbd) && prevMouse == old(prevMouse) && prevPad == old(prevPad)
        invariant pressed == p0 + NewKeys(r.keycode[..i], prevKbd)
      {
        NewKeysSnoc(r.keycode, prevKbd, i);
        if r.keycode[i] != 0 {
          var held := FindKeyInReport(prevKbd, r.keycode[i]);
          if !held {
            AppendAssoc(p0, NewKeys(r.keycode[..i], prevKbd), [r.keycode[i]]);
            pressed := pressed + [r.keycode[i]];
          }
        }
      }
      assert r.keycode[..6] == r.keycode;
      prevKbd := r;
    }

    /** `process_mouse_report`: the report is kept. */
    method ProcessMouse(r: MouseReport)
      modifies this
      ensures prevMouse == r && prevKbd == old(prevKbd) && prevPad == old(prevPad) && pressed == old(pressed)
    {
      prevMouse := r;
    }

    /** `process_gamepad_report`: the report is kept. */
    method ProcessGamepad(r: PadReport)
      modifies this
      ensures prevPad == r && prevKbd == old(prevKbd) && prevMouse == old(prevMouse) && pressed == old(pressed)
    {
      prevPad := r;
    }

    /**
     * `process_generic_report`: a keyboard, mouse or gamepad report of the
     * Generic Desktop page that has a description goes to its handler;
     * anything else changes nothing.
     */
    method ProcessGeneric(infos: seq<ReportInfo>, report: seq<bv8>)
      requires Valid() && |infos| <= MAX_REPORT && Readable(infos, report)
      modifies this
      ensures Valid() && GenericEffect(infos, report)
    {
      var l := FindReport(infos, report);
      if l.Some? {
        var info := l.value.0;
        if info.usagePage == HID_USAGE_PAGE_DESKTOP {
          if info.usage == HID_USAGE_DESKTOP_KEYBOARD {
            ProcessKbd(ParseKbd(l.value.1));
          } else if info.usage == HID_USAGE_DESKTOP_MOUSE {
            ProcessMouse(ParseMouse(l.value.1));
          } else if info.usage == HID_USAGE_DESKTOP_GAMEPAD {
            ProcessGamepad(ParsePad(l.value.1));
          }
        }
      }
    }

    /** The effect of `ProcessKbd` on the bytes `b`: the newly pressed keys are reported and the report is kept. */
    twostate predicate KbdEffect(b: seq<bv8>)
      reads this
    {
      prevKbd == ParseKbd(b) && prevMouse == old(prevMouse) && prevPad == old(prevPad)
      && pressed == old(pressed) + NewKeys(ParseKbd(b).keycode, old(prevKbd))
    }

    /** The effect of `ProcessMouse` on the bytes `b`: only the mouse report changes. */
    twostate predicate MouseEffect(b: seq<bv8>)
      reads this
    {
      prevMouse == ParseMouse(b) && prevKbd == old(prevKbd) && prevPad == old(prevPad) && pressed == old(pressed)
    }

    /** The effect of `ProcessGamepad` on the bytes `b`: only the gamepad report changes. */
    twostate predicate PadEffect(b: seq<bv8>)
      reads this
    {
      prevPad == ParsePad(b) && prevKbd == old(prevKbd) && prevMouse == old(prevMouse) && pressed == old(pressed)
    }

    /** Nothing changes. */
    twostate predicate NoEffect()
      reads this
    {
      prevKbd == old(prevKbd) && prevMouse == old(prevMouse) && prevPad == old(prevPad) && pressed == old(pressed)
    }

    /**
     * The effect of `ProcessGeneric`: the looked-up payload has the effect of
     * the handler of its usage, and anything else has none.
     */
    twostate predicate GenericEffect(infos: seq<ReportInfo>, report: seq<bv8>)
      requires Readable(infos, report)
      reads this
    {
      var l := Lookup(infos, report);
      var h := if l.Some? then HandlerFor(l.value.0) else None;
      (h == Some(Keyboard) ==> KbdEffect(l.value.1))
      && (h == Some(Mouse) ==> MouseEffect(l.value.1))
      && (h == Some(Gamepad) ==> PadEffect(l.value.1))
      && (h == None ==> NoEffect())
    }

    /** `tuh_hid_report_received_cb`: boot keyboards and mice by protocol, the rest as generic reports. */
    method ReportReceived(protocol: nat, infos: seq<ReportInfo>, report: seq<bv8>)
      requires Valid() && |infos| <= MAX_REPORT && Readable(infos, report)
      modifies this
      ensures Valid()
      ensures protocol == HID_ITF_PROTOCOL_KEYBOARD ==> KbdEffect(report)
      ensures protocol == HID_ITF_PROTOCOL_MOUSE ==> MouseEffect(report)
      ensures protocol != HID_ITF_PROTOCOL_KEYBOARD && protocol != HID_ITF_PROTOCOL_MOUSE ==> GenericEffect(infos, report)
    {
      if protocol == HID_ITF_PROTOCOL_KEYBOARD {
        ProcessKbd(ParseKbd(report));
      } else if protocol == HID_ITF_PROTOCOL_MOUSE {
        ProcessMouse(ParseMouse(report));
      } else {
        ProcessGeneric(infos, report);
      }
    }
  }
}
