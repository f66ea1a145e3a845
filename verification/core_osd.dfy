// The core's own OSD menu: a list of items, each with a set of options and
// a current value. Up and Down move between items that have options, Right,
// Enter and Left cycle the value of the current item, each change is sent to
// the FPGA, and a changed switch item is written back into the core file.

module CoreOsd {
  import opened Common
  import opened Menu
  import opened FileIo

  /** `MAX_OSD_ITEMS`: slots of `core.osd`. */
  const MAX_OSD_ITEMS: nat := 32
  /** `CORE_OSD_TYPE_SWITCH`: the item type whose value is kept in the core file. */
  const CORE_OSD_TYPE_SWITCH: u8 := 0x00
  /** `FILE_POS_SWITCHES_DATA`: where the switch values start in the core file. */
  const FILE_POS_SWITCHES_DATA: nat := 512

  /** `core_osd_t`: the fields the handler reads and writes. */
  datatype OsdItem = OsdItem(kind: u8, optionsLen: u8, val: u8, prevVal: u8)

  /** Down: the next item when it exists and has options, otherwise the first item. */
  function DownItem(osd: seq<OsdItem>, len: nat, curr: nat): nat
    requires len <= |osd|
  {
    if curr + 1 < len && osd[curr + 1].optionsLen > 0 then curr + 1 else 0
  }

  /** The last of the first `n` items that has options, or 0 when none has. */
  function LastWithOptions(osd: seq<OsdItem>, n: nat): (r: nat)
    requires n <= |osd|
    ensures (exists i :: 0 <= i < n && osd[i].optionsLen > 0) ==>
      r < n && osd[r].optionsLen > 0 && forall j :: r < j < n ==> osd[j].optionsLen == 0
    ensures (forall i :: 0 <= i < n ==> osd[i].optionsLen == 0) ==> r == 0
  {
    if n == 0 then 0
    else if osd[n - 1].optionsLen > 0 then n - 1
    else LastWithOptions(osd, n - 1)
  }

  /** Up: the previous item, or from the first item the last one with options. */
  function UpItem(osd: seq<OsdItem>, len: nat, curr: nat): nat
    requires len <= |osd|
  {
    if curr > 0 then curr - 1 else LastWithOptions(osd, len)
  }

  /** The item selected after the Down and Up tests of one key event. */
  function Moved(osd: seq<OsdItem>, len: nat, curr: nat, input: Input): nat
    requires len <= |osd|
  {
    var c := if DownPressed(input) then DownItem(osd, len, curr) else curr;
    if UpPressed(input) then UpItem(osd, len, c) else c
  }

  /**
   * Right or Enter: the next value, wrapping to 0 past the last option. The
   * increment wraps at 256 as `uint8_t` does, and the comparison is in `int`,
   * so an item without options always gets 0.
   */
  function NextVal(v: u8, n: u8): (r: u8)
    ensures n > 0 ==> r < n
    ensures n > 0 && v < n ==> r == if v + 1 < n then v + 1 else 0
    ensures n == 0 ==> r == 0
  {
    var w := (v + 1) % 256;
    if w > n - 1 then 0 else w
  }

  /**
   * Left: the previous value, wrapping from 0 to the last option. For an
   * item without options `options_len - 1` is stored into a `uint8_t`, so the
   * value becomes 255.
   */
  function PrevVal(v: u8, n: u8): (r: u8)
    ensures n > 0 && v < n ==> r == if v > 0 then v - 1 else n - 1
    ensures n == 0 && v == 0 ==> r == 255
  {
    if v > 0 then v - 1 else (n - 1) % 256
  }

  /** On an item with options, Left undoes Right and Right undoes Left. */
  lemma CycleInverse(v: u8, n: u8)
    requires 0 < n && v < n
    ensures PrevVal(NextVal(v, n), n) == v
    ensures NextVal(PrevVal(v, n), n) == v
  {
  }

  /** The keys that step a value forward: Right, and Enter with its pad buttons. */
  predicate ValueUpPressed(i: Input)
  {
    RightPressed(i) || EnterPressed(i)
  }

  /** The current item after the Right/Enter and Left tests of one key event. */
  function Cycled(it: OsdItem, input: Input): OsdItem
  {
    var v := if ValueUpPressed(input) then NextVal(it.val, it.optionsLen) else it.val;
    it.(val := if LeftPressed(input) then PrevVal(v, it.optionsLen) else v)
  }

  /** The `core_send` calls of one key event: one per value change, for the current item. */
  function Sends(c: nat, input: Input): seq<nat>
  {
    (if ValueUpPressed(input) then [c] else []) + (if LeftPressed(input) then [c] else [])
  }

  /** Only a switch item whose value was stepped asks for a save. */
  function NeedsSave(it: OsdItem, input: Input, pending: bool): bool
  {
    pending || (it.kind == CORE_OSD_TYPE_SWITCH && (ValueUpPressed(input) || LeftPressed(input)))
  }

  /** Every item with options holds one of its options. */
  ghost predicate ValsInRange(osd: seq<OsdItem>)
  {
    forall i :: 0 <= i < |osd| && osd[i].optionsLen > 0 ==> osd[i].val < osd[i].optionsLen
  }

  /**
   * The moves stay inside the item slots, and on a non-empty menu the
   * selection stays on a menu item (or returns to the first).
   */
  lemma MovedInRange(osd: seq<OsdItem>, len: nat, curr: nat, input: Input)
    requires len <= |osd| && curr < |osd|
    ensures Moved(osd, len, curr, input) < |osd|
    ensures curr < len ==> Moved(osd, len, curr, input) < len
  {
  }

  /**
   * Up undoes Down on an item with options when the next item has options
   * too, and when no later item has any (Down wraps to the first item and Up
   * wraps back to the last item with options).
   */
  lemma UpUndoesDown(osd: seq<OsdItem>, len: nat, curr: nat)
    requires len <= |osd| && curr < len && osd[curr].optionsLen > 0
    ensures curr + 1 < len && osd[curr + 1].optionsLen > 0 ==> UpItem(osd, len, DownItem(osd, len, curr)) == curr
    ensures (forall j :: curr < j < len ==> osd[j].optionsLen == 0) ==> UpItem(osd, len, DownItem(osd, len, curr)) == curr
  {
  }

  /** A value step keeps every item with options on one of its options. */
  lemma CycledKeepsRange(osd: seq<OsdItem>, c: nat, input: Input)
    requires c < |osd| && ValsInRange(osd)
    ensures ValsInRange(osd[c := Cycled(osd[c], input)])
    ensures ValsInRange(osd[c := Cycled(osd[c], input).(prevVal := Cycled(osd[c], input).val)])
  {
    var it := osd[c];
    if it.optionsLen > 0 {
      assert Cycled(it, input).val < it.optionsLen;
    }
  }

  /** Right and Left in one key event leave the value of an item with options as it was. */
  lemma RightLeftRestores(it: OsdItem, input: Input)
    requires 0 < it.optionsLen && it.val < it.optionsLen
    requires ValueUpPressed(input) && LeftPressed(input)
    ensures Cycled(it, input) == it
  {
    CycleInverse(it.val, it.optionsLen);
  }

  /** The running core's OSD menu state (`core.osd`, `curr_osd_item`, `core.osd_need_save`). */
  class Osd {
    /** `core.osd`: all slots; the menu is the first `osdLen` of them. */
    var osd: seq<OsdItem>
    var osdLen: nat
    /** `curr_osd_item`. */
    var curr: nat
    /** `core.osd_need_save`. */
    var needSave: bool
    /** `core.filename`. */
    var filename: string
    /** The items handed to `core_send`, in order. */
    var sent: seq<nat>
    /** The (file position, byte) writes into the core file, in order. */
    var writes: seq<(nat, u8)>

    predicate Valid()
      reads this
    {
      |osd| == MAX_OSD_ITEMS && osdLen <= MAX_OSD_ITEMS && curr < MAX_OSD_ITEMS
    }

    constructor (osd: seq<OsdItem>, osdLen: nat, filename: string)
      requires |osd| == MAX_OSD_ITEMS && osdLen <= MAX_OSD_ITEMS
      ensures this.osd == osd && this.osdLen == osdLen && this.filename == filename
      ensures curr == 0 && !needSave && sent == [] && writes == [] && Valid()
    {
      this.osd := osd;
      this.osdLen := osdLen;
      this.filename := filename;
      curr := 0;
      needSave := false;
      sent := [];
      writes := [];
    }

    /** The scan of the Up handler: the last menu item with options. */
    method LastOptionItem() returns (last: nat)
      requires Valid()
      ensures last == LastWithOptions(osd, osdLen)
    {
      last := 0;
      for i := 0 to osdLen
        invariant last == LastWithOptions(osd, i)
      {
        if osd[i].optionsLen > 0 {
          last := i;
        }
      }
    }

    /**
     * `app_core_save`: a core on flash (its file name is a flash path) is
     * always written; on the SD card a file that does not open, or is not
     * writable, leaves everything as it was. A save clears the flag, makes
     * the value the item's saved value and writes it into the core file.
     */
    method Save(pos: nat, sdOpens: bool, sdWritable: bool)
      requires Valid() && pos < |osd|
      modifies this
      ensures osdLen == old(osdLen) && curr == old(curr) && filename == old(filename) && sent == old(sent)
      ensures IsFlashFs(filename) || (sdOpens && sdWritable) ==>
        !needSave && osd == old(osd)[pos := old(osd)[pos].(prevVal := old(osd)[pos].val)]
        && writes == old(writes) + [(FILE_POS_SWITCHES_DATA + pos, old(osd)[pos].val)]
      ensures !(IsFlashFs(filename) || (sdOpens && sdWritable)) ==>
        needSave == old(needSave) && osd == old(osd) && writes == old(writes)
      ensures Valid()
    {
      var isFlash := |filename| > 0 && filename[0] == '/';
      if !isFlash {
        if !sdOpens {
          return;
        }
        if !sdWritable {
          return;
        }
      }
      needSave := false;
      osd := osd[pos := osd[pos].(prevVal := osd[pos].val)];
      writes := writes + [(FILE_POS_SWITCHES_DATA + pos, osd[pos].val)];
    }

    /**
     * `app_core_on_keyboard`: the item moves, the value steps of the
     * current item, and a save when one is pending. `sdOpens` and
     * `sdWritable` are what the SD card would answer to a save.
     */
    method OnKeyboard(input: Input, sdOpens: bool, sdWritable: bool)
      requires Valid()
      modifies this
      ensures Valid() && osdLen == old(osdLen) && filename == old(filename)
      ensures curr == Moved(old(osd), osdLen, old(curr), input)
      ensures sent == old(sent) + Sends(curr, input)
      ensures var it := Cycled(old(osd)[curr], input);
              var pending := NeedsSave(it, input, old(needSave));
              var saved := pending && (IsFlashFs(filename) || (sdOpens && sdWritable));
              osd == old(osd)[curr := if saved then it.(prevVal := it.val) else it]
              && needSave == (pending && !saved)
              && writes == old(writes) + (if saved then [(FILE_POS_SWITCHES_DATA + curr, it.val)] else [])
    {
      MoveItem(input);
      StepValue(input);
      if needSave {
        Save(curr, sdOpens, sdWritable);
      }
    }

    /** The Down and Up tests. */
    method MoveItem(input: Input)
      requires Valid()
      modifies this
      ensures Valid() && osdLen == old(osdLen) && filename == old(filename) && osd == old(osd)
      ensures needSave == old(needSave) && sent == old(sent) && writes == old(writes)
      ensures curr == Moved(osd, osdLen, old(curr), input)
    {
      MovedInRange(osd, osdLen, curr, input);
      var c := curr;
      if DownPressed(input) {
        if c + 1 < osdLen && osd[c + 1].optionsLen > 0 {
          c := c + 1;
        } else {
          c := 0;
        }
      }
      if UpPressed(input) {
        if c > 0 {
          c := c - 1;
        } else {
          c := LastOptionItem();
        }
      }
      curr := c;
    }

    /** The Right/Enter and Left tests on the current item. */
    method StepValue(input: Input)
      requires Valid()
      modifies this
      ensures Valid() && osdLen == old(osdLen) && curr == old(curr) && filename == old(filename)
      ensures writes == old(writes)
      ensures osd == old(osd)[curr := Cycled(old(osd)[curr], input)]
      ensures needSave == NeedsSave(old(osd)[curr], input, old(needSave))
      ensures sent == old(sent) + Sends(curr, input)
    {
      if ValueUpPressed(input) {
        StepUp();
      }
      assert osd == old(osd)[curr := osd[curr]];
      if LeftPressed(input) {
        StepDown();
      }
    }

    /** Right or Enter on the current item. */
    method StepUp()
      requires Valid()
      modifies this
      ensures Valid() && osdLen == old(osdLen) && curr == old(curr) && filename == old(filename)
      ensures writes == old(writes) && sent == old(sent) + [curr]
      ensures osd == old(osd)[curr := old(osd)[curr].(val := NextVal(old(osd)[curr].val, old(osd)[curr].optionsLen))]
      ensures needSave == (old(needSave) || old(osd)[curr].kind == CORE_OSD_TYPE_SWITCH)
    {
      var it := osd[curr];
      var v := (it.val + 1) % 256;
      if v > it.optionsLen - 1 {
        v := 0;
      }
      osd := osd[curr := it.(val := v)];
      sent := sent + [curr];
      if it.kind == CORE_OSD_TYPE_SWITCH {
        needSave := true;
      }
    }

    /** Left on the current item. */
    method StepDown()
      requires Valid()
      modifies this
      ensures Valid() && osdLen == old(osdLen) && curr == old(curr) && filename == old(filename)
      ensures writes == old(writes) && sent == old(sent) + [curr]
      ensures osd == old(osd)[curr := old(osd)[curr].(val := PrevVal(old(osd)[curr].val, old(osd)[curr].optionsLen))]
      ensures needSave == (old(needSave) || old(osd)[curr].kind == CORE_OSD_TYPE_SWITCH)
    {
      var it := osd[curr];
      if it.val > 0 {
        osd := osd[curr := it.(val := it.val - 1)];
      } else {
        osd := osd[curr := it.(val := (it.optionsLen - 1) % 256)];
      }
      sent := sent + [curr];
      if it.kind == CORE_OSD_TYPE_SWITCH {
        needSave := true;
      }
    }
  }
}
