// What the three OSD menus share: the keyboard / pad input of one key event,
// the wrap-around and page-jump moves of a list selection, and the window of
// list entries shown around the selection.

module Menu {
  import opened Common
  import opened Sega

  /** Key codes of the USB HID keyboard usage page (`KEY_*`). */
  const KEY_R: u8 := 0x15
  const KEY_ENTER: u8 := 0x28
  const KEY_SPACE: u8 := 0x2C
  const KEY_RIGHT: u8 := 0x4F
  const KEY_LEFT: u8 := 0x50
  const KEY_DOWN: u8 := 0x51
  const KEY_UP: u8 := 0x52

  /** `MAX_CORES_PER_PAGE`: list entries per page of the text OSD. */
  const PAGE_SIZE: nat := 16
  /** `MAX_CORES_PER_FT_PAGE`: list entries per page of the graphical core list. */
  const FT_PAGE_SIZE: nat := 8

  /** `osd_state_e`: which OSD application has the keyboard. */
  datatype OsdState = StateMain | StateRtc | StateCoreBrowser | StateFileLoader

  /** One key event: the first keycode of the keyboard report and both pads' state words. */
  datatype Input = Input(key: u8, joyL: Buttons, joyR: Buttons)

  predicate DownPressed(i: Input) { i.key == KEY_DOWN || i.joyL.down || i.joyR.down }
  predicate UpPressed(i: Input) { i.key == KEY_UP || i.joyL.up || i.joyR.up }
  predicate RightPressed(i: Input) { i.key == KEY_RIGHT || i.joyL.right || i.joyR.right }
  predicate LeftPressed(i: Input) { i.key == KEY_LEFT || i.joyL.left || i.joyR.left }

  /** Enter on the keyboard, or A or B on either pad. */
  predicate EnterPressed(i: Input) { i.key == KEY_ENTER || i.joyL.a || i.joyR.a || i.joyL.b || i.joyR.b }

  /** Down: the next entry, wrapping from the last one to the first. */
  function Down(sel: nat, len: nat): nat
    requires len > 0
  {
    if sel < len - 1 then sel + 1 else 0
  }

  /** Up: the previous entry, wrapping from the first one to the last. */
  function Up(sel: nat, len: nat): nat
    requires len > 0
  {
    if sel > 0 then sel - 1 else len - 1
  }

  /** Right: one page further, stopping at the last entry. */
  function PageForward(sel: nat, len: nat, page: nat): nat
    requires len > 0
  {
    if sel + page <= len - 1 then sel + page else len - 1
  }

  /** Left: one page back, stopping at the first entry. */
  function PageBack(sel: nat, page: nat): nat
  {
    if sel - page >= 0 then sel - page else 0
  }

  /** The moves of one key event, applied in the order the handlers test them. */
  function Navigate(sel: nat, len: nat, input: Input, page: nat): nat
    requires len > 0
  {
    var s1 := if DownPressed(input) then Down(sel, len) else sel;
    var s2 := if UpPressed(input) then Up(s1, len) else s1;
    var s3 := if RightPressed(input) then PageForward(s2, len, page) else s2;
    if LeftPressed(input) then PageBack(s3, page) else s3
  }

  /** Every move keeps the selection on an entry of the list. */
  lemma NavigateInRange(sel: nat, len: nat, input: Input, page: nat)
    requires sel < len
    ensures Navigate(sel, len, input, page) < len
  {
  }

  /** Down and Up undo each other on every entry, across the wrap-around too. */
  lemma DownUpInverse(sel: nat, len: nat)
    requires sel < len
    ensures Up(Down(sel, len), len) == sel
    ensures Down(Up(sel, len), len) == sel
  {
  }

  /** The 1-based page holding entry `sel`: the ceiling of (sel + 1) / size. */
  function PageOf(sel: nat, size: nat): (p: nat)
    requires size > 0
    ensures p >= 1
  {
    (sel + size) / size
  }

  /** Number of pages: the ceiling of len / size. */
  function Pages(len: nat, size: nat): nat
    requires size > 0
  {
    (len + size - 1) / size
  }

  /** First entry of the selection's page. */
  function WindowFrom(sel: nat, size: nat): nat
    requires size > 0
  {
    (PageOf(sel, size) - 1) * size
  }

  /** One past the last entry of the selection's page. */
  function WindowTo(sel: nat, len: nat, size: nat): nat
    requires size > 0
  {
    if PageOf(sel, size) * size > len then len else PageOf(sel, size) * size
  }

  /**
   * The window drawn for a selection on the list holds the selection, lies in
   * the list, holds at most one page of entries, starts on a page boundary,
   * and its page is one of the list's pages.
   */
  lemma WindowHoldsSelection(sel: nat, len: nat, size: nat)
    requires size == PAGE_SIZE || size == FT_PAGE_SIZE
    requires sel < len
    ensures WindowFrom(sel, size) <= sel < WindowTo(sel, len, size) <= len
    ensures WindowTo(sel, len, size) - WindowFrom(sel, size) <= size
    ensures WindowFrom(sel, size) % size == 0
    ensures 1 <= PageOf(sel, size) <= Pages(len, size)
  {
    if size == 16 {
      assert WindowFrom(sel, 16) == ((sel + 16) / 16 - 1) * 16;
    } else {
      assert WindowFrom(sel, 8) == ((sel + 8) / 8 - 1) * 8;
    }
  }

  /** Paging forward from a full page lands on the same row of the next page. */
  lemma PageForwardNextPage(sel: nat, len: nat, size: nat)
    requires size == PAGE_SIZE || size == FT_PAGE_SIZE
    requires sel + size < len
    ensures PageOf(PageForward(sel, len, size), size) == PageOf(sel, size) + 1
    ensures PageForward(sel, len, size) - WindowFrom(PageForward(sel, len, size), size) == sel - WindowFrom(sel, size)
  {
  }

  /** Paging back from any page but the first lands on the same row of the previous page. */
  lemma PageBackPreviousPage(sel: nat, size: nat)
    requires size == PAGE_SIZE || size == FT_PAGE_SIZE
    requires sel >= size
    ensures PageOf(PageBack(sel, size), size) == PageOf(sel, size) - 1
    ensures PageBack(sel, size) - WindowFrom(PageBack(sel, size), size) == sel - WindowFrom(sel, size)
  {
  }
}
