// The file loader OSD application: it lists the files of the running core's
// directory on the second SD card (through an `index.db` it writes and reads
// back), keeps the list sorted case-insensitively, moves the selection on
// key presses, remembers the last loaded file in the core's bitstream file,
// and streams a chosen file to the FPGA as bank / data frames.

module FileLoader {
  import opened Common
  import opened Text
  import opened Sorting
  import opened Menu

  /** `MAX_FILES`: slots of the file list. */
  const MAX_FILES: nat := 255
  /** `FILE_POS_FILELOADER_FILE`: where the core file keeps the last loaded name (32 bytes). */
  const FILE_POS_FILELOADER_FILE: nat := 121
  /** Longest name the list and the index accept. */
  const NAME_MAX: nat := 32

  const CMD_FILEBANK: bv8 := 0x0C
  const CMD_FILEDATA: bv8 := 0x0D
  const CMD_FILELOADER: bv8 := 0x0E

  // ---------------------------------------------------------------------
  // Paths

  /** The core's directory: trimmed, "/" when empty, rooted with a leading "/". */
  function Dir(coreDir: string): (d: string)
    ensures |d| > 0 && d[0] == '/'
    ensures !IsSpace(d[|d| - 1])
  {
    var t := Trim(coreDir);
    TrimShape(coreDir);
    if |t| == 0 then "/" else if t[0] != '/' then "/" + t else t
  }

  /** Normalising a directory that is already normal changes nothing. */
  lemma DirIdempotent(coreDir: string)
    ensures Dir(Dir(coreDir)) == Dir(coreDir)
  {
    NoEdgeSpacesTrimmed(Dir(coreDir));
  }

  /** A trimmed, rooted directory is kept as it is. */
  lemma DirKeepsRooted(coreDir: string)
    requires |Trim(coreDir)| > 0 && Trim(coreDir)[0] == '/'
    ensures Dir(coreDir) == Trim(coreDir)
  {
  }

  /** The path a file is opened by: directory, "/", the trimmed name, trimmed and cut to 254 characters. */
  function FullPath(coreDir: string, name: string): string
  {
    CharArray(Trim(Dir(coreDir) + "/" + Trim(name)), 255)
  }

  /** While it fits the 255-byte buffer, the full path is exactly directory + "/" + trimmed name. */
  lemma FullPathJoins(coreDir: string, name: string)
    requires |Dir(coreDir)| + 1 + |Trim(name)| < 255
    ensures FullPath(coreDir, name) == Dir(coreDir) + "/" + Trim(name)
  {
    var p := Dir(coreDir) + "/" + Trim(name);
    TrimShape(name);
    assert p[0] == '/';
    if |Trim(name)| > 0 {
      assert p[|p| - 1] == Trim(name)[|Trim(name)| - 1];
    } else {
      assert p[|p| - 1] == '/';
    }
    NoEdgeSpacesTrimmed(p);
  }

  // ---------------------------------------------------------------------
  // The index: which directory entries are listed and how they are stored

  /** One entry of the directory listing: its long name and whether it is a directory. */
  datatype DirEntry = DirEntry(name: string, isDir: bool)

  predicate OccursAt(hay: string, needle: string, i: nat)
  {
    i + |needle| <= |hay| && hay[i..i + |needle|] == needle
  }

  /** `String::indexOf(needle) != -1`. */
  predicate Contains(hay: string, needle: string)
  {
    exists i: nat | i <= |hay| :: OccursAt(hay, needle, i)
  }

  /** The extension list as the scan uses it: lower-cased, then trimmed. */
  function Exts(fileExtensions: string): string
  {
    Trim(ToLower(fileExtensions))
  }

  /** A directory entry the scan lists, for a lower-cased, trimmed extension list. */
  predicate Listed(e: DirEntry, exts: string)
  {
    !e.isDir && |e.name| <= NAME_MAX && (|exts| == 0 || Contains(exts, ToLower(LastFour(e.name))))
  }

  /** The name the scan writes: with an extension filter its suffix has been lower-cased. */
  function Stored(name: string, exts: string): (r: string)
    ensures |r| == |name|
  {
    if |exts| == 0 then name else name[..|name| - |LastFour(name)|] + ToLower(LastFour(name))
  }

  /** Stored names of every listed entry, in directory order. */
  function Accepted(entries: seq<DirEntry>, exts: string): (r: seq<string>)
    ensures |r| <= |entries|
  {
    if entries == [] then []
    else
      var rest := Accepted(entries[..|entries| - 1], exts);
      var e := entries[|entries| - 1];
      if Listed(e, exts) then rest + [Stored(e.name, exts)] else rest
  }

  /** The names the scan writes: the first `MAX_FILES` accepted ones. */
  function ScanNames(entries: seq<DirEntry>, exts: string): (r: seq<string>)
    ensures |r| <= MAX_FILES
  {
    var a := Accepted(entries, exts);
    if |a| <= MAX_FILES then a else a[..MAX_FILES]
  }

  /** The index file's text: every name followed by a newline. */
  function IndexText(names: seq<string>): string
  {
    if names == [] then [] else names[0] + "\n" + IndexText(names[1..])
  }

  lemma {:induction false} IndexTextAppend(names: seq<string>, n: string)
    ensures IndexText(names + [n]) == IndexText(names) + n + "\n"
  {
    if names != [] {
      assert (names + [n])[1..] == names[1..] + [n];
      IndexTextAppend(names[1..], n);
    }
  }

  /** Position of the first newline, or the length when there is none. */
  function LineEnd(t: string): (k: nat)
    ensures k <= |t|
    ensures forall i :: 0 <= i < k ==> t[i] != '\n'
    ensures k < |t| ==> t[k] == '\n'
  {
    if t == [] || t[0] == '\n' then 0 else 1 + LineEnd(t[1..])
  }

  /** What repeated `readStringUntil('\n')` returns while the file has data. */
  function Lines(t: string): seq<string>
    decreases |t|
  {
    if t == [] then []
    else
      var k := LineEnd(t);
      [t[..k]] + Lines(if k < |t| then t[k + 1..] else [])
  }

  /** The list read from the index: lines of 1 to 32 characters, trimmed. */
  function Kept(lines: seq<string>): (r: seq<string>)
    ensures |r| <= |lines|
  {
    if lines == [] then []
    else
      var rest := Kept(lines[..|lines| - 1]);
      var l := lines[|lines| - 1];
      if 0 < |l| <= NAME_MAX then rest + [Trim(l)] else rest
  }

  function IndexFiles(t: string): seq<string>
  {
    Kept(Lines(t))
  }

  predicate IndexableName(n: string)
  {
    0 < |n| <= NAME_MAX && forall i :: 0 <= i < |n| ==> n[i] != '\n'
  }

  lemma LinesCons(n: string, rest: string)
    requires forall i :: 0 <= i < |n| ==> n[i] != '\n'
    ensures Lines(n + "\n" + rest) == [n] + Lines(rest)
  {
    var t := n + "\n" + rest;
    assert t[|n|] == '\n';
    assert LineEnd(t) == |n|;
    assert t[..|n|] == n;
    assert t[|n| + 1..] == rest;
  }

  /** Reading back an index splits it into exactly the names written. */
  lemma {:induction false} IndexRoundTrip(names: seq<string>)
    requires forall k :: 0 <= k < |names| ==> IndexableName(names[k])
    ensures Lines(IndexText(names)) == names
  {
    if names != [] {
      LinesCons(names[0], IndexText(names[1..]));
      IndexRoundTrip(names[1..]);
    }
  }

  function MapTrim(names: seq<string>): (r: seq<string>)
    ensures |r| == |names| && forall k :: 0 <= k < |names| ==> r[k] == Trim(names[k])
  {
    if names == [] then [] else MapTrim(names[..|names| - 1]) + [Trim(names[|names| - 1])]
  }

  lemma {:induction false} KeptAll(lines: seq<string>)
    requires forall k :: 0 <= k < |lines| ==> 0 < |lines[k]| <= NAME_MAX
    ensures Kept(lines) == MapTrim(lines)
  {
    if lines != [] {
      KeptAll(lines[..|lines| - 1]);
    }
  }

  lemma StoredIndexable(e: DirEntry, exts: string)
    requires Listed(e, exts) && |e.name| > 0
    requires forall i :: 0 <= i < |e.name| ==> e.name[i] != '\n'
    ensures IndexableName(Stored(e.name, exts))
  {
    var s := Stored(e.name, exts);
    if |exts| > 0 {
      var cut := |e.name| - |LastFour(e.name)|;
      ToLowerAt(LastFour(e.name));
      forall i | 0 <= i < |s| ensures s[i] != '\n' {
        if i >= cut {
          assert s[i] == LowerChar(LastFour(e.name)[i - cut]);
          assert LastFour(e.name)[i - cut] == e.name[i];
        }
      }
    }
  }

  lemma {:induction false} AcceptedIndexable(entries: seq<DirEntry>, exts: string)
    requires forall k :: 0 <= k < |entries| ==> |entries[k].name| > 0
    requires forall k, i :: 0 <= k < |entries| && 0 <= i < |entries[k].name| ==> entries[k].name[i] != '\n'
    ensures forall k :: 0 <= k < |Accepted(entries, exts)| ==> IndexableName(Accepted(entries, exts)[k])
  {
    if entries != [] {
      AcceptedIndexable(entries[..|entries| - 1], exts);
      var e := entries[|entries| - 1];
      if Listed(e, exts) {
        StoredIndexable(e, exts);
      }
    }
  }

  /**
   * Scanning a directory and reading the index back yields the names the
   * scan accepted, trimmed, as long as no name is empty or holds a newline
   * (as on a FAT volume).
   */
  lemma ScanThenRead(entries: seq<DirEntry>, exts: string)
    requires forall k :: 0 <= k < |entries| ==> |entries[k].name| > 0
    requires forall k, i :: 0 <= k < |entries| && 0 <= i < |entries[k].name| ==> entries[k].name[i] != '\n'
    ensures IndexFiles(IndexText(ScanNames(entries, exts))) == MapTrim(ScanNames(entries, exts))
    ensures |IndexFiles(IndexText(ScanNames(entries, exts)))| <= MAX_FILES
  {
    AcceptedIndexable(entries, exts);
    var names := ScanNames(entries, exts);
    IndexRoundTrip(names);
    KeptAll(names);
  }

  // ---------------------------------------------------------------------
  // Sort key

  /** `operator<` on list entries: the lower-cased names in `strcmp` order. */
  predicate NameLess(a: string, b: string)
  {
    StrLess(ToLower(a), ToLower(b))
  }

  /** The case-insensitive order meets what `std::sort` needs. */
  lemma NameLessOrders()
    ensures StrictWeakOrder(NameLess)
  {
    forall a ensures !NameLess(a, a) {
      StrLessIrreflexive(ToLower(a));
    }
    forall a, b, c | NameLess(a, b) && NameLess(b, c) ensures NameLess(a, c) {
      StrLessTransitive(ToLower(a), ToLower(b), ToLower(c));
    }
    forall a, b, c | !NameLess(a, b) && !NameLess(b, c) ensures !NameLess(a, c) {
      if NameLess(a, c) {
        if ToLower(a) != ToLower(b) {
          StrLessTotal(ToLower(a), ToLower(b));
          StrLessTransitive(ToLower(b), ToLower(a), ToLower(c));
        }
      }
    }
  }

  /** The list after `std::sort`: a case-insensitively sorted permutation of what was read. */
  lemma SortedList(files: seq<string>)
    ensures SortedBy(Sort(files, NameLess), NameLess)
    ensures multiset(Sort(files, NameLess)) == multiset(files)
  {
    NameLessOrders();
    SortSorted(files, NameLess);
  }

  // ---------------------------------------------------------------------
  // Streaming a file to the FPGA

  /** The loader's frames before their translation to SPI bytes. */
  datatype LoadFrame =
    | Reset(on: bool)               // CMD_FILELOADER: hold / release the loader
    | Bank(index: u8, value: u8)    // CMD_FILEBANK: one of the three high address bytes
    | Data(offset: u8, value: u8)   // CMD_FILEDATA: a byte at offset inside the current bank

  function ToSpi(f: LoadFrame): SpiFrame
  {
    match f
    case Reset(on) => SpiFrame(CMD_FILELOADER, 0, if on then 1 else 0)
    case Bank(i, v) => SpiFrame(CMD_FILEBANK, Byte(i), Byte(v))
    case Data(o, v) => SpiFrame(CMD_FILEDATA, Byte(o), Byte(v))
  }

  function Spi(fs: seq<LoadFrame>): (r: seq<SpiFrame>)
    ensures |r| == |fs| && forall i :: 0 <= i < |fs| ==> r[i] == ToSpi(fs[i])
  {
    seq(|fs|, i requires 0 <= i < |fs| => ToSpi(fs[i]))
  }

  lemma SpiAppend(a: seq<LoadFrame>, b: seq<LoadFrame>)
    ensures Spi(a + b) == Spi(a) + Spi(b)
  {
  }

  /** `send_byte`: the three bank bytes at each 256-byte boundary, then the offset and the byte. */
  function ByteFrames(addr: nat, data: u8): seq<LoadFrame>
    requires addr < 0x1_0000_0000
  {
    (if addr % 256 == 0
     then [Bank(0, (addr / 0x100) % 256), Bank(1, (addr / 0x1_0000) % 256), Bank(2, addr / 0x100_0000)]
     else [])
    + [Data(addr % 256, data)]
  }

  /** Frames for a file's bytes, numbered by the 32-bit counter `cnt`. */
  function DataFrames(content: seq<u8>): seq<LoadFrame>
  {
    if content == [] then []
    else DataFrames(content[..|content| - 1]) + ByteFrames((|content| - 1) % 0x1_0000_0000, content[|content| - 1])
  }

  lemma DataFramesSnoc(content: seq<u8>, n: nat)
    requires n < |content|
    ensures DataFrames(content[..n + 1]) == DataFrames(content[..n]) + ByteFrames(n % 0x1_0000_0000, content[n])
  {
    assert content[..n + 1][..n] == content[..n];
  }

  /** Everything `send_file` sends for an opened file: the reset pulse, then the bytes. */
  function LoadFrames(content: seq<u8>): seq<LoadFrame>
  {
    [Reset(true), Reset(false)] + DataFrames(content)
  }

  /**
   * The receiving end, as a reference: it latches the three bank bytes and
   * writes each data byte at bank bytes * 256 + offset.
   */
  datatype Rx = Rx(b1: int, b2: int, b3: int, writes: seq<(int, u8)>)

  function Step(rx: Rx, f: LoadFrame): Rx
  {
    match f
    case Reset(_) => rx
    case Bank(i, v) => if i == 0 then rx.(b1 := v) else if i == 1 then rx.(b2 := v) else if i == 2 then rx.(b3 := v) else rx
    case Data(o, v) => rx.(writes := rx.writes + [(rx.b3 * 0x100_0000 + rx.b2 * 0x1_0000 + rx.b1 * 0x100 + o, v)])
  }

  function Replay(rx: Rx, fs: seq<LoadFrame>): Rx
    decreases |fs|
  {
    if fs == [] then rx else Replay(Step(rx, fs[0]), fs[1..])
  }

  lemma {:induction false} ReplayAppend(rx: Rx, a: seq<LoadFrame>, b: seq<LoadFrame>)
    ensures Replay(rx, a + b) == Replay(Replay(rx, a), b)
    decreases |a|
  {
    if a != [] {
      assert (a + b)[0] == a[0] && (a + b)[1..] == a[1..] + b;
      ReplayAppend(Step(rx, a[0]), a[1..], b);
    } else {
      assert a + b == b;
    }
  }

  /** Every byte of the file, paired with its address. */
  function Enumerate(content: seq<u8>): (r: seq<(int, u8)>)
    ensures |r| == |content| && forall i :: 0 <= i < |r| ==> r[i] == (i, content[i])
  {
    seq(|content|, i requires 0 <= i < |content| => (i, content[i]))
  }

  lemma SplitAddress(a: nat)
    requires a < 0x1_0000_0000
    ensures (a / 0x100_0000) * 0x100_0000 + ((a / 0x1_0000) % 256) * 0x1_0000 + ((a / 0x100) % 256) * 0x100 + a % 256 == a
  {
    var q1 := a / 0x100;
    var q2 := q1 / 256;
    var q3 := q2 / 256;
    assert a == q1 * 256 + a % 256;
    assert q1 == q2 * 256 + q1 % 256;
    assert q2 == q3 * 256 + q2 % 256;
    assert a / 0x1_0000 == q2;
    assert a / 0x100_0000 == q3;
  }

  /** The bank registers the receiver holds after byte `a - 1`: the bytes of (a - 1) / 256. */
  ghost predicate BanksFor(rx: Rx, a: nat)
  {
    a > 0 ==>
      rx.b1 == ((a - 1) / 0x100) % 256 && rx.b2 == ((a - 1) / 0x1_0000) % 256 && rx.b3 == (a - 1) / 0x100_0000
  }

  lemma LoadFramesSnoc(content: seq<u8>)
    requires 0 < |content| <= 0x1_0000_0000
    ensures LoadFrames(content)
      == LoadFrames(content[..|content| - 1]) + ByteFrames(|content| - 1, content[|content| - 1])
  {
    var a := |content| - 1;
    assert a % 0x1_0000_0000 == a;
    assert DataFrames(content) == DataFrames(content[..a]) + ByteFrames(a, content[a]);
  }

  lemma EnumerateSnoc(content: seq<u8>)
    requires 0 < |content|
    ensures Enumerate(content)
      == Enumerate(content[..|content| - 1]) + [(|content| - 1, content[|content| - 1])]
  {
  }

  lemma ByteDelivered(rx: Rx, a: nat, v: u8)
    requires a < 0x1_0000_0000
    requires BanksFor(rx, a)
    ensures Replay(rx, ByteFrames(a, v)).writes == rx.writes + [(a, v)]
    ensures BanksFor(Replay(rx, ByteFrames(a, v)), a + 1)
  {
    if a % 256 == 0 {
      BankBoundaryDelivered(rx, a, v);
    } else {
      InsideBankDelivered(rx, a, v);
    }
  }

  /** At a 256-byte boundary the three bank frames latch the new high bytes first. */
  lemma BankBoundaryDelivered(rx: Rx, a: nat, v: u8)
    requires a < 0x1_0000_0000 && a % 256 == 0
    ensures Replay(rx, ByteFrames(a, v)).writes == rx.writes + [(a, v)]
    ensures BanksFor(Replay(rx, ByteFrames(a, v)), a + 1)
  {
    SplitAddress(a);
    var fs := ByteFrames(a, v);
    var t1 := fs[1..];
    var t2 := t1[1..];
    var t3 := t2[1..];
    assert t3 == [fs[3]] && t3[1..] == [];
    var r := Step(Step(Step(rx, fs[0]), fs[1]), fs[2]);
    calc {
      Replay(rx, fs);
      Replay(Step(rx, fs[0]), t1);
      Replay(Step(Step(rx, fs[0]), fs[1]), t2);
      Replay(r, t3);
      Step(r, fs[3]);
    }
    assert r.b1 == (a / 0x100) % 256 && r.b2 == (a / 0x1_0000) % 256 && r.b3 == a / 0x100_0000;
  }

  /** Inside a bank the latched high bytes are still those of the address. */
  lemma InsideBankDelivered(rx: Rx, a: nat, v: u8)
    requires a < 0x1_0000_0000 && a % 256 != 0
    requires BanksFor(rx, a)
    ensures Replay(rx, ByteFrames(a, v)).writes == rx.writes + [(a, v)]
    ensures BanksFor(Replay(rx, ByteFrames(a, v)), a + 1)
  {
    SplitAddress(a);
    var fs := ByteFrames(a, v);
    assert fs == [Data(a % 256, v)] && fs[1..] == [];
    assert (a - 1) / 0x100 == a / 0x100;
    assert (a - 1) / 0x1_0000 == a / 0x1_0000;
    assert (a - 1) / 0x100_0000 == a / 0x100_0000;
    assert Replay(rx, fs) == Step(rx, fs[0]);
  }

  /**
   * Whatever the file, the receiver writes byte i at address i for every
   * byte, in order: the bank frames at each 256-byte boundary are exactly
   * what it needs to rebuild the 32-bit address.
   */
  lemma {:induction false} FileDelivered(content: seq<u8>)
    requires |content| <= 0x1_0000_0000
    ensures Replay(Rx(0, 0, 0, []), LoadFrames(content)).writes == Enumerate(content)
    ensures BanksFor(Replay(Rx(0, 0, 0, []), LoadFrames(content)), |content|)
  {
    var rx0 := Rx(0, 0, 0, []);
    if content == [] {
      var fs := LoadFrames(content);
      assert fs == [Reset(true), Reset(false)];
      assert fs[1..] == [Reset(false)] && fs[1..][1..] == [];
      calc {
        Replay(rx0, fs);
        Replay(Step(rx0, fs[0]), fs[1..]);
        Replay(Step(Step(rx0, fs[0]), fs[1]), fs[1..][1..]);
      }
    } else {
      var init := content[..|content| - 1];
      var a := |init|;
      var v := content[a];
      FileDelivered(init);
      var rx := Replay(rx0, LoadFrames(init));
      LoadFramesSnoc(content);
      ReplayAppend(rx0, LoadFrames(init), ByteFrames(a, v));
      ByteDelivered(rx, a, v);
      EnumerateSnoc(content);
    }
  }

  // ---------------------------------------------------------------------
  // The SD card as the loader sees it

  /**
   * The second SD card: whether it mounts, whether the core's directory
   * opens, the directory's entries in listing order, whether a new index
   * can be created, the readable files by full path, and whether the
   * core's bitstream file opens writable on the first card.
   */
  datatype Volume = Volume(
    mounted: bool, dirOpens: bool, entries: seq<DirEntry>, indexCreatable: bool,
    files: map<string, seq<u8>>, coreFileOpens: bool, coreFileWritable: bool)

  /** The index after the scan step: rebuilt when forced or missing, dropped if it cannot be created. */
  function NewIndex(index: Option<string>, vol: Volume, force: bool, exts: string): Option<string>
  {
    if !vol.mounted || !vol.dirOpens then index
    else if force || index.None? then
      if vol.indexCreatable then Some(IndexText(ScanNames(vol.entries, exts))) else None
    else index
  }

  /** The list after a successful read: the index's files if there is one, sorted. */
  function ListedFiles(files: seq<string>, index: Option<string>): seq<string>
  {
    Sort(if index.Some? then IndexFiles(index.value) else files, NameLess)
  }

  /** What `send_file` sends for a name: the load frames if the full path opens, nothing otherwise. */
  function SendFrames(coreDir: string, name: string, vol: Volume): seq<SpiFrame>
  {
    var path := FullPath(coreDir, name);
    if path in vol.files then Spi(LoadFrames(vol.files[path])) else []
  }

  predicate Matches(file: string, lastFile: string)
  {
    Trim(file) == Trim(lastFile)
  }

  /** Some entry equals the last file after trimming. */
  predicate AnyMatch(files: seq<string>, lastFile: string)
    ensures AnyMatch(files, lastFile) <==> exists k :: 0 <= k < |files| && Matches(files[k], lastFile)
  {
    files != [] && (Matches(files[|files| - 1], lastFile) || AnyMatch(files[..|files| - 1], lastFile))
  }

  /** The selection after restoring the last file: the last entry equal to it after trimming. */
  function LastMatch(files: seq<string>, lastFile: string, sel: nat): (r: nat)
    ensures AnyMatch(files, lastFile) ==> r < |files| && Matches(files[r], lastFile)
    ensures !AnyMatch(files, lastFile) ==> r == sel
    ensures forall k :: r < k < |files| ==> !Matches(files[k], lastFile)
  {
    if files == [] then sel
    else if Matches(files[|files| - 1], lastFile) then |files| - 1
    else LastMatch(files[..|files| - 1], lastFile, sel)
  }

  /** Frames of restoring the last file: the file is sent once per matching entry. */
  function RestoreFrames(files: seq<string>, lastFile: string, coreDir: string, vol: Volume): seq<SpiFrame>
  {
    if files == [] then []
    else
      RestoreFrames(files[..|files| - 1], lastFile, coreDir, vol)
      + (if Matches(files[|files| - 1], lastFile) then SendFrames(coreDir, files[|files| - 1], vol) else [])
  }


  lemma RestoreSnoc(files: seq<string>, i: nat, lastFile: string, coreDir: string, vol: Volume, sel: nat)
    requires i < |files|
    ensures RestoreFrames(files[..i + 1], lastFile, coreDir, vol)
      == RestoreFrames(files[..i], lastFile, coreDir, vol)
         + (if Matches(files[i], lastFile) then SendFrames(coreDir, files[i], vol) else [])
    ensures LastMatch(files[..i + 1], lastFile, sel)
      == if Matches(files[i], lastFile) then i else LastMatch(files[..i], lastFile, sel)
    ensures AnyMatch(files[..i + 1], lastFile) == (AnyMatch(files[..i], lastFile) || Matches(files[i], lastFile))
  {
    assert files[..i + 1][..i] == files[..i];
  }

  /** When the trimmed names are distinct, restoring a saved entry selects that entry again. */
  lemma RestoreFindsSaved(files: seq<string>, sel: nat, other: nat)
    requires sel < |files|
    requires forall i, j :: 0 <= i < j < |files| ==> Trim(files[i]) != Trim(files[j])
    ensures LastMatch(files, files[sel], other) == sel
  {
    assert Matches(files[sel], files[sel]);
  }

  /** The list after a `read_list`: the listed files when the card and directory open, else the old list. */
  function Reread(files: seq<string>, index: Option<string>, vol: Volume): seq<string>
  {
    if vol.mounted && vol.dirOpens then ListedFiles(files, index) else files
  }

  /** Whether `read_list` looks for the last file in the list `files`. */
  predicate Restoring(files: seq<string>, lastFile: string, vol: Volume)
  {
    vol.mounted && vol.dirOpens && |files| > 0 && |lastFile| > 0
  }

  /** The selection after a `read_list` that starts from the first entry. */
  function RestoredSel(files: seq<string>, lastFile: string, vol: Volume): (r: nat)
    ensures |files| > 0 ==> r < |files|
    ensures Restoring(files, lastFile, vol) && AnyMatch(files, lastFile) ==> Matches(files[r], lastFile)
  {
    if Restoring(files, lastFile, vol) then LastMatch(files, lastFile, 0) else 0
  }

  /** Whether that `read_list` starts hiding the OSD. */
  predicate RestoreHides(files: seq<string>, lastFile: string, vol: Volume)
  {
    Restoring(files, lastFile, vol) && AnyMatch(files, lastFile)
  }

  /** The frames that `read_list` sends while restoring. */
  function RestoredFrames(files: seq<string>, lastFile: string, coreDir: string, vol: Volume): seq<SpiFrame>
  {
    if Restoring(files, lastFile, vol) then RestoreFrames(files, lastFile, coreDir, vol) else []
  }

  // ---------------------------------------------------------------------
  // The application

  class Loader {
    /** `files[0 .. files_len)`. */
    var files: seq<string>
    /** `file_sel`. */
    var sel: nat
    /** `core.last_file`. */
    var lastFile: string
    /** The 32-byte last-file field of the core's bitstream file. */
    var savedFile: string
    /** Text of `index.db` in the core's directory, if it exists. */
    var index: Option<string>
    /** `is_osd_hiding`. */
    var hiding: bool
    /** `core.dir` and `core.file_extensions`. */
    const coreDir: string
    const fileExtensions: string
    /** The SPI queue to the FPGA. */
    const out: Channel

    /** The selection is on the list, or 0. */
    predicate InRange()
      reads this
    {
      sel < |files| || sel == 0
    }

    constructor (coreDir: string, fileExtensions: string, lastFile: string, savedFile: string, index: Option<string>, out: Channel)
      ensures this.coreDir == coreDir && this.fileExtensions == fileExtensions && this.out == out
      ensures files == [] && sel == 0 && this.lastFile == lastFile && this.savedFile == savedFile
      ensures this.index == index && !hiding
      ensures InRange()
    {
      this.coreDir := coreDir;
      this.fileExtensions := fileExtensions;
      this.out := out;
      files := [];
      sel := 0;
      this.lastFile := lastFile;
      this.savedFile := savedFile;
      this.index := index;
      hiding := false;
    }

    /** `send_byte`. */
    method SendByte(addr: nat, data: u8)
      requires addr < 0x1_0000_0000
      modifies out
      ensures out.frames == old(out.frames) + Spi(ByteFrames(addr, data))
    {
      if addr % 256 == 0 {
        out.Send(ToSpi(Bank(0, (addr / 0x100) % 256)));
        out.Send(ToSpi(Bank(1, (addr / 0x1_0000) % 256)));
        out.Send(ToSpi(Bank(2, addr / 0x100_0000)));
      }
      out.Send(ToSpi(Data(addr % 256, data)));
    }

    /** `send_file`: resolve the path, then stream the file if it opens. */
    method SendFile(name: string, vol: Volume)
      modifies out
      ensures out.frames == old(out.frames) + SendFrames(coreDir, name, vol)
    {
      var path := FullPath(coreDir, name);
      if path !in vol.files {
        return;
      }
      var content := vol.files[path];
      var o := out;
      ghost var f0 := o.frames;
      o.Send(ToSpi(Reset(true)));
      o.Send(ToSpi(Reset(false)));
      assert o.frames == f0 + Spi([Reset(true), Reset(false)]);
      SendBytes(content);
      SpiAppend([Reset(true), Reset(false)], DataFrames(content));
      AppendAssoc(f0, Spi([Reset(true), Reset(false)]), Spi(DataFrames(content)));
    }

    /** The byte loop of `send_file`, with the 32-bit counter `cnt` as address. */
    method SendBytes(content: seq<u8>)
      modifies out
      ensures out.frames == old(out.frames) + Spi(DataFrames(content))
    {
      var cnt := 0;
      while cnt < |content|
        invariant cnt <= |content|
        invariant out.frames == old(out.frames) + Spi(DataFrames(content[..cnt]))
      {
        SendByte(cnt % 0x1_0000_0000, content[cnt]);
        DataFramesSnoc(content, cnt);
        SpiAppend(DataFrames(content[..cnt]), ByteFrames(cnt % 0x1_0000_0000, content[cnt]));
        AppendAssoc(old(out.frames), Spi(DataFrames(content[..cnt])), Spi(ByteFrames(cnt % 0x1_0000_0000, content[cnt])));
        cnt := cnt + 1;
      }
      assert content[..cnt] == content;
    }

    /** The scan: one index line per listed entry, at most `MAX_FILES` of them. */
    static method Scan(entries: seq<DirEntry>, exts: string) returns (text: string)
      ensures text == IndexText(ScanNames(entries, exts))
    {
      text := [];
      var cnt := 0;
      ghost var written: seq<string> := [];
      for i := 0 to |entries|
        invariant written == (if |Accepted(entries[..i], exts)| <= MAX_FILES then Accepted(entries[..i], exts) else Accepted(entries[..i], exts)[..MAX_FILES])
        invariant cnt == |written| && text == IndexText(written)
      {
        var e := entries[i];
        assert entries[..i + 1][..i] == entries[..i];
        if cnt < MAX_FILES && !e.isDir && |e.name| <= NAME_MAX {
          if |exts| == 0 || Contains(exts, ToLower(LastFour(e.name))) {
            var s := Stored(e.name, exts);
            IndexTextAppend(written, s);
            text := text + s + "\n";
            written := written + [s];
            cnt := cnt + 1;
          }
        }
      }
      assert entries[..|entries|] == entries;
    }

    /** Reading the index: every line of 1 to 32 characters, trimmed, in file order. */
    static method ReadIndex(text: string) returns (names: seq<string>)
      ensures names == IndexFiles(text)
    {
      var lines := Lines(text);
      names := [];
      for i := 0 to |lines|
        invariant names == Kept(lines[..i])
      {
        assert lines[..i + 1][..i] == lines[..i];
        var s := lines[i];
        if 0 < |s| <= NAME_MAX {
          names := names + [Trim(s)];
        }
      }
      assert lines[..|lines|] == lines;
    }

    /** Restoring the previously loaded file: every matching entry is selected and sent. */
    method RestoreLast(vol: Volume)
      modifies this, out
      ensures files == old(files) && lastFile == old(lastFile) && savedFile == old(savedFile) && index == old(index)
      ensures |files| > 0 && |lastFile| > 0 ==>
        sel == LastMatch(files, lastFile, old(sel))
        && hiding == (old(hiding) || AnyMatch(files, lastFile))
        && out.frames == old(out.frames) + RestoreFrames(files, lastFile, coreDir, vol)
      ensures !(|files| > 0 && |lastFile| > 0) ==>
        sel == old(sel) && hiding == old(hiding) && out.frames == old(out.frames)
      ensures old(InRange()) ==> InRange()
    {
      if |files| == 0 || |lastFile| == 0 {
        return;
      }
      ghost var sel0, hiding0, frames0 := sel, hiding, out.frames;
      for i := 0 to |files|
        invariant files == old(files) && lastFile == old(lastFile) && savedFile == old(savedFile) && index == old(index)
        invariant sel == LastMatch(files[..i], lastFile, sel0)
        invariant hiding == (hiding0 || AnyMatch(files[..i], lastFile))
        invariant out.frames == frames0 + RestoreFrames(files[..i], lastFile, coreDir, vol)
      {
        RestoreSnoc(files, i, lastFile, coreDir, vol, sel0);
        ghost var sent := if Matches(files[i], lastFile) then SendFrames(coreDir, files[i], vol) else [];
        ghost var done := RestoreFrames(files[..i], lastFile, coreDir, vol);
        RestoreAt(i, vol);
        AppendAssoc(frames0, done, sent);
      }
      assert files[..|files|] == files;
    }

    /** One pass of the restore loop: a matching entry is selected and sent. */
    method RestoreAt(i: nat, vol: Volume)
      requires i < |files|
      modifies this, out
      ensures files == old(files) && lastFile == old(lastFile) && savedFile == old(savedFile) && index == old(index)
      ensures sel == (if Matches(files[i], lastFile) then i else old(sel))
      ensures hiding == (old(hiding) || Matches(files[i], lastFile))
      ensures out.frames == old(out.frames) + (if Matches(files[i], lastFile) then SendFrames(coreDir, files[i], vol) else [])
    {
      if Trim(files[i]) == Trim(lastFile) {
        sel := i;
        SendFile(files[sel], vol);
        hiding := true;
      }
    }

    /** `read_list`: rebuild the index when forced or missing, read it, sort, restore the last file. */
    method ReadList(vol: Volume, force: bool)
      requires !force && index.Some? ==> |IndexFiles(index.value)| <= MAX_FILES
      modifies this, out
      ensures index == NewIndex(old(index), vol, force, Exts(fileExtensions))
      ensures lastFile == old(lastFile) && savedFile == old(savedFile)
      ensures !vol.mounted || !vol.dirOpens ==>
        files == old(files) && sel == old(sel) && hiding == old(hiding) && out.frames == old(out.frames)
      ensures vol.mounted && vol.dirOpens ==>
        files == ListedFiles(old(files), index)
        && (|files| > 0 && |lastFile| > 0 ==>
              sel == LastMatch(files, lastFile, old(sel))
              && hiding == (old(hiding) || AnyMatch(files, lastFile))
              && out.frames == old(out.frames) + RestoreFrames(files, lastFile, coreDir, vol))
        && (!(|files| > 0 && |lastFile| > 0) ==>
              sel == old(sel) && hiding == old(hiding) && out.frames == old(out.frames))
      ensures old(sel) == 0 ==> InRange()
    {
      if !vol.mounted || !vol.dirOpens {
        return;
      }
      LoadIndex(vol, force);
      RestoreLast(vol);
    }

    /** The index and list part of `read_list` on a mounted card and an open directory. */
    method LoadIndex(vol: Volume, force: bool)
      requires vol.mounted && vol.dirOpens
      requires !force && index.Some? ==> |IndexFiles(index.value)| <= MAX_FILES
      modifies this
      ensures index == NewIndex(old(index), vol, force, Exts(fileExtensions))
      ensures files == ListedFiles(old(files), index)
      ensures lastFile == old(lastFile) && savedFile == old(savedFile) && sel == old(sel) && hiding == old(hiding)
    {
      var exts := Exts(fileExtensions);
      if force || index.None? {
        if vol.indexCreatable {
          var text := Scan(vol.entries, exts);
          index := Some(text);
        } else {
          index := None;
        }
      }
      if index.Some? {
        files := ReadIndex(index.value);
      }
      files := Sort(files, NameLess);
    }

    /** `app_file_loader_save`: remember the selected name, in memory and in the core file. */
    method Save(vol: Volume)
      requires sel < |files|
      modifies this
      ensures files == old(files) && sel == old(sel) && index == old(index) && hiding == old(hiding)
      ensures vol.coreFileOpens && vol.coreFileWritable ==>
        lastFile == files[sel] && savedFile == files[sel]
      ensures !(vol.coreFileOpens && vol.coreFileWritable) ==>
        lastFile == old(lastFile) && savedFile == old(savedFile)
    {
      if !vol.coreFileOpens {
        return;
      }
      if !vol.coreFileWritable {
        return;
      }
      lastFile := files[sel];
      savedFile := lastFile;
    }

    /** Enter: save the selection, send the file, start hiding the OSD. */
    method Load(vol: Volume)
      requires sel < |files|
      modifies this, out
      ensures files == old(files) && sel == old(sel) && index == old(index) && hiding
      ensures vol.coreFileOpens && vol.coreFileWritable ==> lastFile == files[sel] && savedFile == files[sel]
      ensures !(vol.coreFileOpens && vol.coreFileWritable) ==> lastFile == old(lastFile) && savedFile == old(savedFile)
      ensures out.frames == old(out.frames) + SendFrames(coreDir, files[sel], vol)
    {
      Save(vol);
      SendFile(files[sel], vol);
      hiding := true;
    }

    /**
     * `app_file_loader_on_keyboard` without R: the moves, then Enter. With
     * an empty list nothing happens.
     */
    method OnKeyboard(input: Input, vol: Volume)
      requires input.key != KEY_R
      requires InRange()
      modifies this, out
      ensures files == old(files) && index == old(index) && InRange()
      ensures |files| == 0 ==>
        sel == old(sel) && lastFile == old(lastFile) && savedFile == old(savedFile)
        && hiding == old(hiding) && out.frames == old(out.frames)
      ensures |files| > 0 ==> sel == Navigate(old(sel), |files|, input, PAGE_SIZE)
      ensures |files| > 0 && EnterPressed(input) ==>
        hiding && out.frames == old(out.frames) + SendFrames(coreDir, files[sel], vol)
        && (vol.coreFileOpens && vol.coreFileWritable ==> lastFile == files[sel] && savedFile == files[sel])
        && (!(vol.coreFileOpens && vol.coreFileWritable) ==> lastFile == old(lastFile) && savedFile == old(savedFile))
      ensures |files| > 0 && !EnterPressed(input) ==>
        lastFile == old(lastFile) && savedFile == old(savedFile) && hiding == old(hiding) && out.frames == old(out.frames)
    {
      if |files| == 0 {
        return;
      }
      NavigateInRange(sel, |files|, input, PAGE_SIZE);
      Move(input);
      if EnterPressed(input) {
        Load(vol);
      }
    }

    /**
     * R: back to the first entry and a forced rescan (which may restore the
     * last file), then Enter if a pad's A or B is held as well. The new
     * state is `read_list`'s from selection 0, followed by `Load` when Enter
     * is held and the new list is not empty.
     */
    method Rescan(input: Input, vol: Volume)
      requires input.key == KEY_R
      requires InRange()
      modifies this, out
      ensures |old(files)| == 0 ==>
        files == old(files) && sel == old(sel) && index == old(index) && lastFile == old(lastFile)
        && savedFile == old(savedFile) && hiding == old(hiding) && out.frames == old(out.frames)
      ensures |old(files)| > 0 ==> index == NewIndex(old(index), vol, true, Exts(fileExtensions))
      ensures |old(files)| > 0 ==>
        var fs := Reread(old(files), index, vol);
        var s := RestoredSel(fs, old(lastFile), vol);
        var enter := EnterPressed(input) && |fs| > 0;
        var saved := enter && vol.coreFileOpens && vol.coreFileWritable;
        && files == fs && sel == s
        && hiding == (old(hiding) || RestoreHides(fs, old(lastFile), vol) || enter)
        && lastFile == (if saved then fs[s] else old(lastFile))
        && savedFile == (if saved then fs[s] else old(savedFile))
        && out.frames == old(out.frames) + RestoredFrames(fs, old(lastFile), coreDir, vol)
             + (if enter then SendFrames(coreDir, fs[s], vol) else [])
      ensures InRange()
    {
      if |files| == 0 {
        return;
      }
      Move(input);
      Reload(vol);
      if EnterPressed(input) && |files| > 0 {
        Load(vol);
        AppendAssoc(old(out.frames), RestoredFrames(files, lastFile, coreDir, vol), SendFrames(coreDir, files[sel], vol));
      }
    }

    /** `file_sel = 0` and the forced `read_list` of R. */
    method Reload(vol: Volume)
      modifies this, out
      ensures index == NewIndex(old(index), vol, true, Exts(fileExtensions))
      ensures files == Reread(old(files), index, vol) && sel == RestoredSel(files, lastFile, vol)
      ensures lastFile == old(lastFile) && savedFile == old(savedFile)
      ensures hiding == (old(hiding) || RestoreHides(files, lastFile, vol))
      ensures out.frames == old(out.frames) + RestoredFrames(files, lastFile, coreDir, vol)
    {
      sel := 0;
      ReadList(vol, true);
    }

    /** The four moves of one key event, in the handler's order. */
    method Move(input: Input)
      requires |files| > 0 && sel < |files|
      modifies this
      ensures files == old(files) && lastFile == old(lastFile) && savedFile == old(savedFile)
      ensures index == old(index) && hiding == old(hiding)
      ensures sel == Navigate(old(sel), |files|, input, PAGE_SIZE) && sel < |files|
    {
      NavigateInRange(sel, |files|, input, PAGE_SIZE);
      var len := |files|;
      var s := sel;
      if DownPressed(input) {
        if s < len - 1 { s := s + 1; } else { s := 0; }
      }
      assert s == if DownPressed(input) then Down(old(sel), len) else old(sel);
      if UpPressed(input) {
        if s > 0 { s := s - 1; } else { s := len - 1; }
      }
      if RightPressed(input) {
        if s + PAGE_SIZE <= len - 1 { s := s + PAGE_SIZE; } else { s := len - 1; }
      }
      if LeftPressed(input) {
        if s - PAGE_SIZE >= 0 { s := s - PAGE_SIZE; } else { s := 0; }
      }
      sel := s;
    }
  }
}
