// The core browser OSD application: it lists the core bitstream files of
// the on-board flash file system and of the first SD card, reads each one's
// header into a list entry, sorts the list by the header's order byte, moves
// the selection on key presses and boots the chosen core.

module CoreBrowser {
  import opened Common
  import opened Text
  import opened Sorting
  import opened Menu
  import opened FileIo

  /** `MAX_CORES`: slots of the core list. */
  const MAX_CORES: nat := 255

  /** `CORE_EXT` of the Karabas Go board. */
  const CORE_EXT: string := ".kg1"

  /** `FILE_POS_CORE_*`: offsets of the header fields in a core file. */
  const FILE_POS_CORE_NAME: nat := 36
  const FILE_POS_CORE_BUILD: nat := 68
  const FILE_POS_CORE_VISIBLE: nat := 76
  const FILE_POS_CORE_ORDER: nat := 77
  const FILE_POS_CORE_TYPE: nat := 78
  /** Bytes of header the entry is read from. */
  const HEADER_LEN: nat := 79

  /** `CORE_TYPE_*`. */
  const CORE_TYPE_BOOT: bv8 := 0x00
  const CORE_TYPE_OSD: bv8 := 0x01
  const CORE_TYPE_FILELOADER: bv8 := 0x02

  /** `core_list_item_t`. */
  datatype CoreItem = CoreItem(
    flash: bool, name: string, filename: string, build: string,
    order: bv8, visible: bool, coreType: bv8)

  /** A file of a directory listing: its name (the full name on flash), and its bytes. */
  datatype CoreFile = CoreFile(name: string, isFile: bool, bytes: seq<bv8>)

  /**
   * `app_core_browser_get_item`: the file name ("/" + full name on flash,
   * cut to 32 characters) and the header fields of the core file.
   */
  function GetItem(isFlash: bool, f: CoreFile): (c: CoreItem)
    requires |f.bytes| >= HEADER_LEN
  {
    CoreItem(
      isFlash,
      CString(f.bytes[FILE_POS_CORE_NAME..FILE_POS_CORE_NAME + 32]),
      if isFlash then FlashName(f.name, 33) else CharArray(f.name, 33),
      CString(f.bytes[FILE_POS_CORE_BUILD..FILE_POS_CORE_BUILD + 8]),
      f.bytes[FILE_POS_CORE_ORDER],
      f.bytes[FILE_POS_CORE_VISIBLE] > 0,
      f.bytes[FILE_POS_CORE_TYPE])
  }

  /**
   * The entry holds what the header says: a name of at most 32 characters
   * and a build of at most 8 taken from their fields, the order and type
   * bytes, visibility iff the visible byte is non-zero, and a file name of at
   * most 32 characters that is a flash path for flash files and a prefix of
   * the directory entry's name for SD files.
   */
  lemma GetItemFields(isFlash: bool, f: CoreFile)
    requires |f.bytes| >= HEADER_LEN
    ensures |GetItem(isFlash, f).name| <= 32 && |GetItem(isFlash, f).build| <= 8
    ensures GetItem(isFlash, f).name <= CString(f.bytes[FILE_POS_CORE_NAME..])
    ensures GetItem(isFlash, f).order == f.bytes[FILE_POS_CORE_ORDER]
    ensures GetItem(isFlash, f).coreType == f.bytes[FILE_POS_CORE_TYPE]
    ensures GetItem(isFlash, f).visible <==> f.bytes[FILE_POS_CORE_VISIBLE] != 0
    ensures GetItem(isFlash, f).flash == isFlash
    ensures |GetItem(isFlash, f).filename| <= 32
    ensures isFlash ==> IsFlashFs(GetItem(isFlash, f).filename)
    ensures !isFlash ==> GetItem(isFlash, f).filename <= f.name
  {
    CStringPrefix(f.bytes[FILE_POS_CORE_NAME..FILE_POS_CORE_NAME + 32], f.bytes[FILE_POS_CORE_NAME + 32..]);
    assert f.bytes[FILE_POS_CORE_NAME..] == f.bytes[FILE_POS_CORE_NAME..FILE_POS_CORE_NAME + 32] + f.bytes[FILE_POS_CORE_NAME + 32..];
  }

  /** Reading a C string from a longer buffer can only extend it. */
  lemma {:induction false} CStringPrefix(a: seq<bv8>, b: seq<bv8>)
    ensures CString(a) <= CString(a + b)
  {
    if a != [] {
      assert (a + b)[0] == a[0] && (a + b)[1..] == a[1..] + b;
      CStringPrefix(a[1..], b);
    }
  }

  /** `strstr(strlwr(filename + (len - 4)), CORE_EXT)`: the name ends in ".kg1", in any case. */
  predicate IsCoreName(n: string)
  {
    |n| >= 4 && ToLower(LastFour(n)) == CORE_EXT
  }

  /** The name the filter sees: the 32-byte buffer of the scan holds at most 31 characters. */
  function ScanName(isFlash: bool, f: CoreFile): string
  {
    if isFlash then FlashName(f.name, 32) else CharArray(f.name, 32)
  }

  /** Flash files must be regular files; the SD scan does not look. */
  predicate Listed(isFlash: bool, f: CoreFile)
  {
    (!isFlash || f.isFile) && IsCoreName(ScanName(isFlash, f))
  }

  /** A core name is recognised whatever the case of its extension. */
  lemma CoreNameIgnoresCase(n: string)
    ensures IsCoreName(n) <==> IsCoreName(ToLower(n))
  {
    if |n| >= 4 {
      ToLowerAt(n);
      ToLowerAt(LastFour(n));
      assert LastFour(ToLower(n)) == ToLower(LastFour(n));
      ToLowerIdempotent(LastFour(n));
    }
  }

  /** Every file the scan lists must hold a full header. */
  predicate Readable(isFlash: bool, files: seq<CoreFile>)
  {
    forall k {:trigger Listed(isFlash, files[k])} :: 0 <= k < |files| && Listed(isFlash, files[k]) ==> |files[k].bytes| >= HEADER_LEN
  }

  /** The scan's test of a file, and the entry of a listed file, as values. */
  function KeepFile(isFlash: bool): CoreFile -> bool
  {
    (f: CoreFile) => Listed(isFlash, f)
  }

  function Entry(isFlash: bool): CoreFile --> CoreItem
  {
    (f: CoreFile) requires |f.bytes| >= HEADER_LEN => GetItem(isFlash, f)
  }

  /** Entries of the listed files of one directory, in directory order. */
  function Items(isFlash: bool, files: seq<CoreFile>): (r: seq<CoreItem>)
    requires Readable(isFlash, files)
    ensures |r| <= |files|
  {
    Select(files, KeepFile(isFlash), Entry(isFlash))
  }

  /**
   * The entries of a directory are exactly those of its listed files: each
   * listed file gives an entry, and each entry comes from a listed file.
   */
  lemma ItemsAreListed(isFlash: bool, files: seq<CoreFile>)
    requires Readable(isFlash, files)
    ensures forall k :: 0 <= k < |files| && Listed(isFlash, files[k]) ==> GetItem(isFlash, files[k]) in Items(isFlash, files)
    ensures forall c :: c in Items(isFlash, files) ==>
      exists k :: 0 <= k < |files| && Listed(isFlash, files[k]) && c == GetItem(isFlash, files[k])
  {
    forall k | 0 <= k < |files| && Listed(isFlash, files[k])
      ensures GetItem(isFlash, files[k]) in Items(isFlash, files)
    {
      SelectComplete(files, KeepFile(isFlash), Entry(isFlash), k);
    }
    forall c | c in Items(isFlash, files)
      ensures exists k :: 0 <= k < |files| && Listed(isFlash, files[k]) && c == GetItem(isFlash, files[k])
    {
      SelectSound(files, KeepFile(isFlash), Entry(isFlash), c);
    }
  }

  lemma ReadablePrefix(isFlash: bool, files: seq<CoreFile>, i: nat)
    requires Readable(isFlash, files) && i <= |files|
    ensures Readable(isFlash, files[..i])
  {
  }

  /** One more file of the directory adds its entry when it is listed. */
  lemma ItemsSnoc(isFlash: bool, files: seq<CoreFile>, i: nat)
    requires Readable(isFlash, files) && i < |files|
    ensures Readable(isFlash, files[..i]) && Readable(isFlash, files[..i + 1])
    ensures Items(isFlash, files[..i + 1])
         == Items(isFlash, files[..i]) + (if Listed(isFlash, files[i]) then [GetItem(isFlash, files[i])] else [])
  {
    ReadablePrefix(isFlash, files, i);
    ReadablePrefix(isFlash, files, i + 1);
    SelectSnoc(files, KeepFile(isFlash), Entry(isFlash), i);
  }

  /** `operator<` on list entries: the order byte alone. */
  predicate OrderLess(a: CoreItem, b: CoreItem)
  {
    a.order < b.order
  }

  lemma OrderLessOrders()
    ensures StrictWeakOrder(OrderLess)
  {
  }

  /** After `std::sort` the list is ascending by order byte and holds the same entries. */
  lemma SortedByOrder(cores: seq<CoreItem>)
    ensures forall i, j :: 0 <= i < j < |cores| ==> Sort(cores, OrderLess)[i].order <= Sort(cores, OrderLess)[j].order
    ensures multiset(Sort(cores, OrderLess)) == multiset(cores)
  {
    OrderLessOrders();
    SortSorted(cores, OrderLess);
  }

  /**
   * The OSD application that takes over once the chosen core is configured:
   * the browser again for a boot core, the file loader for a file-loader
   * core, and the main OSD for every other type.
   */
  function StateFor(coreType: bv8): (s: OsdState)
    ensures s == StateCoreBrowser <==> coreType == CORE_TYPE_BOOT
    ensures s == StateFileLoader <==> coreType == CORE_TYPE_FILELOADER
    ensures s != StateRtc
  {
    if coreType == CORE_TYPE_BOOT then StateCoreBrowser
    else if coreType == CORE_TYPE_OSD then StateMain
    else if coreType == CORE_TYPE_FILELOADER then StateFileLoader
    else StateMain
  }

  class Browser {
    /** `cores[0 .. cores_len)`. */
    var cores: seq<CoreItem>
    /** `core_sel`. */
    var sel: nat
    /** `osd_state`. */
    var state: OsdState
    /** `has_ft`: the graphical FT812 screen is up. */
    var hasFt: bool
    /** The file names handed to `do_configure`, in order. */
    var booted: seq<string>
    /** `halt()` was called. */
    var halted: bool

    predicate InRange()
      reads this
    {
      sel < |cores| || sel == 0
    }

    constructor (hasFt: bool)
      ensures cores == [] && sel == 0 && state == StateCoreBrowser && this.hasFt == hasFt
      ensures booted == [] && !halted && InRange()
    {
      cores := [];
      sel := 0;
      state := StateCoreBrowser;
      this.hasFt := hasFt;
      booted := [];
      halted := false;
    }

    /**
     * `app_core_browser_read_list`: the flash root's core files, then the SD
     * root's, appended in directory order and sorted by order byte. A root
     * of a present SD card that does not open halts the firmware.
     */
    method ReadList(hasFs: bool, flashFiles: seq<CoreFile>, hasSd: bool, sdRootOpens: bool, sdFiles: seq<CoreFile>)
      requires Readable(true, flashFiles) && Readable(false, sdFiles)
      requires !halted
      requires |cores| + (if hasFs then |Items(true, flashFiles)| else 0)
                       + (if hasSd then |Items(false, sdFiles)| else 0) <= MAX_CORES
      modifies this
      ensures sel == old(sel) && state == old(state) && hasFt == old(hasFt) && booted == old(booted)
      ensures halted == (hasSd && !sdRootOpens)
      ensures halted ==> cores == old(cores) + (if hasFs then Items(true, flashFiles) else [])
      ensures !halted ==> cores == Sort(old(cores) + (if hasFs then Items(true, flashFiles) else [])
                                        + (if hasSd then Items(false, sdFiles) else []), OrderLess)
    {
      ghost var c0 := cores;
      ghost var fl := if hasFs then Items(true, flashFiles) else [];
      if hasFs {
        AppendListed(true, flashFiles);
      }
      assert cores == c0 + fl;
      if hasSd {
        if !sdRootOpens {
          halted := true;
          return;
        }
        AppendListed(false, sdFiles);
      }
      assert cores == c0 + fl + (if hasSd then Items(false, sdFiles) else []);
      cores := Sort(cores, OrderLess);
    }

    /** One directory loop of `read_list`. */
    method AppendListed(isFlash: bool, files: seq<CoreFile>)
      requires Readable(isFlash, files)
      modifies this
      ensures sel == old(sel) && state == old(state) && hasFt == old(hasFt) && booted == old(booted)
      ensures halted == old(halted)
      ensures cores == old(cores) + Items(isFlash, files)
    {
      ghost var c0 := cores;
      for i := 0 to |files|
        invariant sel == old(sel) && state == old(state) && hasFt == old(hasFt) && booted == old(booted)
        invariant halted == old(halted)
        invariant cores == c0 + Items(isFlash, files[..i])
      {
        var f := files[i];
        ItemsSnoc(isFlash, files, i);
        if Listed(isFlash, f) {
          AppendAssoc(c0, Items(isFlash, files[..i]), [GetItem(isFlash, f)]);
          cores := cores + [GetItem(isFlash, f)];
        }
      }
      assert files[..|files|] == files;
    }

    /**
     * `app_core_browser_on_keyboard`: the moves and Enter when the list is
     * not empty, then Space back to the text OSD from the FT812 screen.
     * `configuredType` is the type byte of the core `do_configure` loads.
     */
    method OnKeyboard(input: Input, configuredType: bv8)
      requires InRange()
      modifies this
      ensures cores == old(cores) && halted == old(halted) && InRange()
      ensures |cores| == 0 ==> sel == old(sel) && state == old(state) && booted == old(booted)
      ensures |cores| > 0 ==> sel == Navigate(old(sel), |cores|, input, PAGE_SIZE)
      ensures |cores| > 0 && EnterPressed(input) ==>
        state == StateFor(configuredType)
        && booted == old(booted) + [CharArray(Trim(cores[sel].filename), 32)]
        && !hasFt
      ensures !(|cores| > 0 && EnterPressed(input)) ==>
        state == old(state) && booted == old(booted)
        && hasFt == (old(hasFt) && input.key != KEY_SPACE)
    {
      if |cores| > 0 {
        Move(input);
        if EnterPressed(input) {
          var f := CharArray(Trim(cores[sel].filename), 32);
          hasFt := false;
          booted := booted + [f];
          match configuredType {
            case 0x00 => state := StateCoreBrowser;
            case 0x01 => state := StateMain;
            case 0x02 => state := StateFileLoader;
            case _ => state := StateMain;
          }
        }
      }
      if input.key == KEY_SPACE && hasFt {
        hasFt := false;
      }
    }

    /** The four moves of one key event, in the handler's order. */
    method Move(input: Input)
      requires |cores| > 0 && sel < |cores|
      modifies this
      ensures cores == old(cores) && state == old(state) && hasFt == old(hasFt)
      ensures booted == old(booted) && halted == old(halted)
      ensures sel == Navigate(old(sel), |cores|, input, PAGE_SIZE) && sel < |cores|
    {
      NavigateInRange(sel, |cores|, input, PAGE_SIZE);
      var len := |cores|;
      var s := sel;
      if DownPressed(input) {
        if s < len - 1 { s := s + 1; } else { s := 0; }
      }
      if UpPressed(input) {
        if s > 0 { s := s - 1; } else { s := len - 1; }
      }
      if RightPressed(input) {
        if s + PAGE_SIZE <= len - 1 { s := s + PAGE_SIZE; } else { s := len - 1; }
      }
      if LeftPressed(input) {
        if s - PAGE_SIZE >= 0 { s := s - PAGE_SIZE; } else { s := 0; }
      }
      sel := s;
    }
  }
}
