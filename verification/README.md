# Karabas Go firmware core, modelled in Dafny

The Karabas Go is a retro-computer board: an FPGA runs the machine (the "core"), and an RP2040
microcontroller runs firmware around it. The firmware talks to the FPGA through 3-byte SPI messages
(command, address, data). This project models the firmware's own logic and proves properties of it.
The firmware parts covered are:

- **FT812 driver** (`ft812.dfy`): the message protocol the driver uses to reach the FT81x graphics
  chip through the FPGA. This covers memory reads and writes, the command FIFO batches, the upload to
  graphics memory, text packing, the RGB timing set-up for the video-mode table, and the
  display-list word encodings.
- **RTC bridge** (`rtc.dfy`): an MC146818-style CMOS register file as the FPGA sees it. Clock
  registers are kept in binary and read as BCD or binary. Status registers A to D are handled, and
  every other register is an EEPROM byte, routed by bank to the I2C EEPROM or to the core's EEPROM.
- **Sega controller reader** (`sega.dfy`): the eight select cycles of one poll of both pads, the
  3- and 6-button detection, and the poll interval.
- **OSD menus**:
  - `menu.dfy`: the list moves and the page window they share.
  - `core_browser.dfy`: the core list built from flash and SD and sorted by order byte, and its keyboard handler.
  - `core_osd.dfy`: the running core's option menu and how it saves switches into the core file.
  - `file_loader.dfy`: the file loader's index file, its sorted list, streaming a file to the FPGA
    bank by bank, restoring the last loaded file, and its keyboard handler.
- **USB HID** (`hid_reports.dfy`, `hid_app.dfy`, `hid_main.dfy`): boot keyboard, mouse and gamepad
  reports; the report-ID lookup of generic reports; and the change tests that decide what is
  forwarded to the FPGA. Both report handlers of the firmware are modelled: the forwarding one and
  the newly-pressed-key one.
- **HID gamepad drivers** (`hid_driver.dfy`): the `.ini` driver files under `/drivers`. This covers
  `strtoul`/`atoi` as newlib defines them, the `strtok` split of a button mapping, the 12 button
  entries, and the directory scan.
- **File helpers** (`file_io.dfy`): big-endian reads and writes of a file, and flash path names.
- **Shared pieces**: `text.dfy` models the Arduino `String` and C string operations the firmware
  uses (trim, lower-casing, `toCharArray`, `strcmp` order). `sorting.dfy` is a sort that stands in
  for `std::sort`. `common.dfy` holds the SPI frame, the outgoing message channel and generic list
  helpers.

Code that updates state in place is modelled as classes with `modifies` clauses: the `FT812`,
`RTC` and `SegaController` objects, the menu globals, the static `prev_report` variables and open
files. Each method is proved against specification functions. Pure logic is modelled as functions
with lemmas. Hardware and library I/O become parameters:
- the SD card's and the flash file system's answers (`Volume`, `CoreFile`, `IniFile` values);
- the FPGA's reply bytes;
- the DS3231's current time;
- `millis()`;
- the pins sampled in each Sega cycle.

## Model

| member | source | states |
|---|---|---|
| FT812.Le16RoundTrip | lib/FT812/FT812.cpp:814-819 | the two little-endian bytes `write16` sends reassemble, as `read16` does, into the same value, and conversely |
| FT812.Le32RoundTrip | lib/FT812/FT812.cpp:821-828 | the same for the four bytes of `write32` / `read32` |
| FT812.AddressTagBits | lib/FT812/FT812.cpp:187-212 | the top address byte keeps address bits 16..21 and carries the direction in its top two bits: 0x80 (`WRITE`) for a write, 0 (`READ`) for a read |
| FT812.HeaderParse | lib/FT812/FT812.cpp:187-212 | the FPGA reads back from the transaction header the direction, the 22-bit address and the length that were sent |
| FT812.DataPhaseOfDataFrames | lib/FT812/FT812.cpp:187-212 | the data phase, with byte i in data register i, parses back to exactly the bytes sent |
| FT812.WriteFramesParse | lib/FT812/FT812.cpp:187-212 | everything `write(addr, data, len)` sends is one write transfer of exactly `data` to the 22-bit address |
| FT812.ParseWrite | lib/FT812/FT812.cpp:187-212 | a header announcing a write of n bytes followed by a data phase of those bytes is recognised as that write transfer |
| FT812.ParseRead | lib/FT812/FT812.cpp:214-241 | a header announcing a read, the address-byte-4 frame and a data phase are recognised as that read transfer |
| FT812.ReadFramesParse | lib/FT812/FT812.cpp:214-241 | everything `read(addr, len)` sends is one read transfer of `len` bytes from the 22-bit address |
| FT812.TextBytes | lib/FT812/FT812.cpp:679-710 | the bytes `sendText` stores are the string followed by 1 to 4 NULs, up to a multiple of four |
| FT812.U16 | lib/FT812/FT812.cpp:303-313 | an `int` passed to a `uint16_t` parameter keeps its value modulo 2^16, and is unchanged when it is in range |
| FT812.TimingOfFits | lib/FT812/FT812.cpp:303-313 | when no sum wraps, the ten RGB timing registers give the sync, porch and visible lengths of the mode (horizontal from 0, vertical from -1) |
| FT812.ModeTimingFits | lib/FT812/FT812.cpp:111-126 | every entry of the video-mode table programs the timing registers without a value wrapping |
| FT812.FontHandle | lib/FT812/FT812.cpp:712-720 | the returned handle is below 32, and a font up to 31 is its own handle |
| FT812.GramChunks | lib/FT812/FT812.cpp:722-738 | `writeGRAM` writes chunks of 1 to 128 bytes |
| FT812.GramChunksCount | lib/FT812/FT812.cpp:722-738 | `writeGRAM` issues ceil(size / 128) writes, and none for an empty upload |
| FT812.GramChunksFlatten | lib/FT812/FT812.cpp:722-738 | together the chunks carry exactly the data, in order |
| FT812.GramChunksLayout | lib/FT812/FT812.cpp:722-738 | the first chunk goes to the offset, each further chunk 128 bytes after the previous one, and every chunk but the last is full |
| FT812.Clear | lib/FT812/FT812.cpp:40 | CLEAR: opcode 0x26 with the colour, stencil and tag flags in bits 2, 1 and 0 |
| FT812.ClearColorRgb | lib/FT812/FT812.cpp:44 | CLEAR_COLOR_RGB: opcode 0x02 with red, green and blue in the three low bytes |
| FT812.ClearColor | lib/FT812/FT812.cpp:45 | CLEAR_COLOR: opcode 0x02 with the low 24 bits of the colour |
| FT812.Color | lib/FT812/FT812.cpp:46 | COLOR: opcode 0x04 with the low 24 bits of the colour |
| FT812.PointSize | lib/FT812/FT812.cpp:47 | POINT_SIZE: opcode 0x0D with the low 12 bits of the size |
| FT812.LineWidth | lib/FT812/FT812.cpp:48 | LINE_WIDTH: opcode 0x0E with the low 12 bits of the width |
| FT812.Begin | lib/FT812/FT812.cpp:41 | BEGIN: opcode 0x1F with the primitive in the low 24 bits |
| FT812.Vertex2ii | lib/FT812/FT812.cpp:49 | VERTEX2II: opcode 2 in the top bits, then x, y (9 bits each), handle (5 bits) and cell (7 bits), each readable back |
| FT812.Vertex2fAsWrittenCorruptsX | lib/FT812/FT812.cpp:50 | the 16-bit mask lets y = -1 set bit 0 of the x field: x = 0 reads back as 1 |
| FT812.Vertex2fFields | lib/FT812/FT812.cpp:50 | with 15-bit fields each coordinate reads back from its own field, whatever the other one is |
| FT812.BitmapSource | lib/FT812/FT812.cpp:51 | BITMAP_SOURCE: opcode 0x01 with the address in the low 24 bits |
| FT812.BitmapLayout | lib/FT812/FT812.cpp:52 | BITMAP_LAYOUT: opcode 0x07, format in bits 19..23, stride and height as their low 9 bits |
| FT812.BitmapSize | lib/FT812/FT812.cpp:53 | BITMAP_SIZE: opcode 0x08, one bit each for filter and wrap x/y, width and height as their low 9 bits |
| FT812.BlendFunc | lib/FT812/FT812.cpp:73 | BLEND_FUNC: opcode 0x0B with source and destination factors in bits 3..5 and 0..2 |
| FT812.Ft812.constructor | lib/FT812/FT812.cpp:131-133 | a fresh driver: zeroed 256-byte buffer, nothing sent, no transaction, FIFO offset 0 |
| FT812.Ft812.Spi | lib/FT812/FT812.cpp:142-146 | sets or clears bit 0 of the control register, keeps the other bits, and sends the register with the exclusive-access address |
| FT812.Ft812.Vga | lib/FT812/FT812.cpp:148-152 | the same for bit 1 |
| FT812.Ft812.Command | lib/FT812/FT812.cpp:161-173 | sends the three command bytes to registers 1 to 3 and marks a non-data transaction expecting a 3-byte reply |
| FT812.Ft812.CommandNoWait | lib/FT812/FT812.cpp:175-185 | sends the same three frames without marking a transaction in progress |
| FT812.Ft812.SendCommand | lib/FT812/FT812.cpp:780-782 | a 24-bit host command is sent most significant byte first |
| FT812.Ft812.Write | lib/FT812/FT812.cpp:187-212 | appends exactly `WriteFrames(addr, data)` and marks a data write of `len` bytes in progress |
| FT812.Ft812.SetData | lib/FT812/FT812.cpp:243-259 | a reply byte at position `pos` is stored at `pos` minus the header length for a data read, ignored otherwise; the transaction ends at the last expected byte |
| FT812.Ft812.Await | lib/FT812/FT812.cpp:266-273 | after a reply arrives, the buffer holds the read bytes and the transaction is over exactly when the reply was complete |
| FT812.Ft812.Read | lib/FT812/FT812.cpp:214-241 | appends exactly `ReadFrames(addr, len)`, and the buffer receives the reply bytes after the 4-byte header |
| FT812.Ft812.Read8 | lib/FT812/FT812.cpp:784-789 | with a full reply the result is the reply's first data byte |
| FT812.Ft812.Read16 | lib/FT812/FT812.cpp:791-796 | with a full reply the result is the two data bytes, little-endian |
| FT812.Ft812.Read32 | lib/FT812/FT812.cpp:798-805 | with a full reply the result is the four data bytes, little-endian |
| FT812.Ft812.Write8 | lib/FT812/FT812.cpp:807-812 | one memory write of the byte |
| FT812.Ft812.Write16 | lib/FT812/FT812.cpp:814-819 | one memory write of the value's two little-endian bytes |
| FT812.Ft812.Write32 | lib/FT812/FT812.cpp:821-828 | one memory write of the value's four little-endian bytes |
| FT812.Ft812.Cmd | lib/FT812/FT812.cpp:626-631 | reads REG_CMD_WRITE, then writes the command word at RAM_CMD plus that offset and advances REG_CMD_WRITE by 4 |
| FT812.Ft812.IncreaseCmdWriteAddress | lib/FT812/FT812.cpp:675 | the FIFO offset advances by 4 modulo 4096 |
| FT812.Ft812.UpdateCmdWriteAddress | lib/FT812/FT812.cpp:677 | the FIFO offset is published with one 16-bit write to REG_CMD_WRITE |
| FT812.Ft812.StartCmd | lib/FT812/FT812.cpp:740-754 | opens a batch at RAM_CMD plus the FIFO offset; the pending bytes are exactly the word's four bytes; the offset advances by 4 |
| FT812.Ft812.IntermediateCmd | lib/FT812/FT812.cpp:756-764 | appends the word's four bytes to the pending batch and advances the FIFO offset by 4 |
| FT812.Ft812.EndCmd | lib/FT812/FT812.cpp:766-778 | appends the last word, writes the whole batch to the FIFO address, then publishes the new offset |
| FT812.Ft812.SendText | lib/FT812/FT812.cpp:679-710 | the batch receives exactly `TextBytes(text)` after the bytes already pending; the FIFO offset advances by its length; the batch is written and published once |
| FT812.Ft812.InitBitmapHandleForFont | lib/FT812/FT812.cpp:712-720 | fonts up to 31 send nothing; a larger ROM font sends one batch CMD_ROMFONT, 14, font, and handle 14 is returned |
| FT812.Ft812.LoadRomFont | lib/FT812/FT812.cpp:712-720 | the CMD_ROMFONT batch: its twelve bytes are CMD_ROMFONT, 14 and the font, written at the FIFO offset, which advances by 12 |
| FT812.Ft812.WriteGram | lib/FT812/FT812.cpp:722-738 | appends exactly the writes of `GramChunks(RAM_G + offset, data)`, one after the other |
| FT812.Ft812.WriteTiming | lib/FT812/FT812.cpp:303-313 | the ten `write16` calls to the RGB timing registers, in the source's order |
| FT812.Ft812.ConfigureTiming | lib/FT812/FT812.cpp:277-313 | selects table mode `m` and programs its timing registers |
| RtcBridge.BinBcdRoundTrip | lib/RTC/RTC.cpp:92-98 | `bin2bcd` of 0..99 is well-formed BCD, and `bcd2bin` undoes it |
| RtcBridge.BcdBinRoundTrip | lib/RTC/RTC.cpp:141-150 | `bcd2bin` of well-formed BCD is below 100, and `bin2bcd` undoes it |
| RtcBridge.TimeTo12h | lib/RTC/RTC.cpp:94 | hours 0..23 map to 1..12, and hours 1..12 are unchanged |
| RtcBridge.EncodeDecode | lib/RTC/RTC.cpp:141-150 | a byte the guest writes to a clock register reads back unchanged in either mode |
| RtcBridge.Get | lib/RTC/RTC.cpp:246-254 | with no EEPROM routed to the bank, every register reads 0xFF |
| RtcBridge.Set | lib/RTC/RTC.cpp:256-265 | with no EEPROM routed, a write changes nothing; presence and bank never change |
| RtcBridge.GetSet | lib/RTC/RTC.cpp:246-265 | on a routed bank, a register reads back the value last written |
| RtcBridge.GetSetOther | lib/RTC/RTC.cpp:246-265 | a write leaves every other register as it was |
| RtcBridge.SetSame | lib/RTC/RTC.cpp:246-265 | writing back the value read changes nothing |
| RtcBridge.Eeprom.Address | lib/RTC/RTC.cpp:248 | a register of a bank routed to the external EEPROM lies below 1024 |
| RtcBridge.AfterWrite | lib/RTC/RTC.cpp:128-165 | a register write keeps the state well-formed and never changes EEPROM presence or bank |
| RtcBridge.RepeatedIgnored | lib/RTC/RTC.cpp:130 | repeating the last write to a register up to 0xD changes nothing |
| RtcBridge.AfterWriteIdempotent | lib/RTC/RTC.cpp:128-165 | writing the same byte to the same register twice has the effect of writing it once |
| RtcBridge.ReadOnlyRegisters | lib/RTC/RTC.cpp:161-162 | writes to registers C and D only update the repeated-write filter |
| RtcBridge.TimeWrite | lib/RTC/RTC.cpp:141-150 | a write to clock register 0..9 stores its decoded value, issues that register's DS3231 writes, and leaves the other nine registers and the EEPROM unchanged |
| RtcBridge.TimeEcho | lib/RTC/RTC.cpp:141-150 | in 24-hour mode a byte written to a clock register reads back unchanged (in BCD mode, for well-formed BCD bytes) |
| RtcBridge.RegisterAWrite | lib/RTC/RTC.cpp:151 | register A stores the byte with bit 7 cleared and leaves the clock alone |
| RtcBridge.RegisterBWrite | lib/RTC/RTC.cpp:152-160 | register B sets BCD mode from bit 2 and forces 24-hour mode; the stored byte has bit 1 set and bit 7 clear, and is only written when it differs |
| RtcBridge.EepromWriteThrough | lib/RTC/RTC.cpp:163 | registers above 0xD go straight to the EEPROM and read back when routed |
| RtcBridge.Always24h | lib/RTC/RTC.cpp:152-160 | no write ever leaves 24-hour mode |
| RtcBridge.TimeFrames | lib/RTC/RTC.cpp:90-99 | `sendTime` sends seven `CMD_RTC` frames |
| RtcBridge.TimeFramesCover | lib/RTC/RTC.cpp:90-99 | each of the seven time registers is sent with its current value |
| RtcBridge.WriteThenSendTime | lib/RTC/RTC.cpp:90-99 | in binary 24-hour mode, a time register written by the guest is sent back with the value written |
| RtcBridge.RegFramesShape | lib/RTC/RTC.cpp:101-126 | `sendAll` sends each register's value: A with bit 7 cleared, B with bit 1 set, C as 0, D as 0x80, and EEPROM registers twice |
| RtcBridge.AllFramesOrder | lib/RTC/RTC.cpp:101-126 | registers are sent in increasing order |
| RtcBridge.AllFramesLength | lib/RTC/RTC.cpp:101-126 | one or two frames per register |
| RtcBridge.SaveWrites | lib/RTC/RTC.cpp:75-84 | `save` issues eight DS3231 writes, starting with the 24-hour mode |
| RtcBridge.Rtc.constructor | lib/RTC/RTC.cpp:16-18 | the initial field values of the `RTC` object |
| RtcBridge.Rtc.Send | lib/RTC/RTC.cpp:86-88 | one `CMD_RTC` frame |
| RtcBridge.Rtc.GetEepromReg | lib/RTC/RTC.cpp:246-254 | returns `Get` of the current bank |
| RtcBridge.Rtc.SetEepromReg | lib/RTC/RTC.cpp:256-265 | the EEPROM becomes `Set` of the old one; nothing else changes |
| RtcBridge.Rtc.SetEepromBank | lib/RTC/RTC.cpp:242-244 | only the bank changes |
| RtcBridge.Rtc.SetData | lib/RTC/RTC.cpp:128-165 | the register file becomes `AfterWrite` of the old one |
| RtcBridge.Rtc.WriteClock | lib/RTC/RTC.cpp:141-150 | a clock register write stores the decoded value and appends that register's DS3231 writes; nothing else changes |
| RtcBridge.Rtc.WriteControl | lib/RTC/RTC.cpp:152-160 | the register B case |
| RtcBridge.Rtc.SendTime | lib/RTC/RTC.cpp:90-99 | sends exactly `TimeFrames` of the current clock |
| RtcBridge.Rtc.SendAll | lib/RTC/RTC.cpp:101-126 | sends exactly `AllFrames` for registers 0..255 |
| RtcBridge.Rtc.ReadAll | lib/RTC/RTC.cpp:167-184 | loads the time from the DS3231 and the BCD flag from register B's bit 2 |
| RtcBridge.Rtc.Begin | lib/RTC/RTC.cpp:22-41 | records whether the EEPROM answers, sets 24-hour mode, reads all, and marks the bridge started |
| RtcBridge.Rtc.Started | lib/RTC/RTC.cpp:43-46 | returns the started flag |
| RtcBridge.Rtc.Handle | lib/RTC/RTC.cpp:48-73 | at least 500 ms after the last poll (unsigned 32-bit difference), reloads the time and sends it; otherwise nothing changes |
| RtcBridge.Rtc.Save | lib/RTC/RTC.cpp:75-84 | writes the kept time to the DS3231 and changes nothing else |
| RtcBridge.Rtc.GetTimeField | lib/RTC/RTC.cpp:186-212 | returns the kept binary field |
| RtcBridge.Rtc.SetTimeField | lib/RTC/RTC.cpp:214-240 | only that field changes |
| Sega.QuietCycles | lib/SegaController/SegaController.cpp:139-144 | cycles 0, 1, 6 and 7 change nothing |
| Sega.Pins | lib/SegaController/SegaController.cpp:101-124 | a sample of both ports has 16 pins |
| Sega.Side | lib/SegaController/SegaController.cpp:101-124 | each side reads eight pins |
| Sega.CyclePins | lib/SegaController/SegaController.cpp:101-124 | a cycle's sample gives eight pins per side |
| Sega.RunCycles | lib/SegaController/SegaController.cpp:70-73 | the eight cycles of a poll come down to cycles 2 to 5 |
| Sega.PollDecoded | lib/SegaController/SegaController.cpp:58-89 | a poll's result is the closed-form decoding of the pins of cycles 2 to 5 |
| Sega.PollForgets | lib/SegaController/SegaController.cpp:178-181 | a poll does not depend on the previous six-button flag |
| Sega.AbsentPad | lib/SegaController/SegaController.cpp:76-84 | an absent pad reports no A, no Start and no six-button mode |
| Sega.PollSides | lib/SegaController/SegaController.cpp:101-124 | a pad's state depends only on its own side's pins |
| Sega.SegaController.constructor | lib/SegaController/SegaController.cpp:32-35 | both pads start with no buttons and three-button mode |
| Sega.SegaController.ReadCycle | lib/SegaController/SegaController.cpp:126-201 | each side is updated by `PadCycle` on its own eight pins |
| Sega.SegaController.GetState | lib/SegaController/SegaController.cpp:58-89 | within the read delay nothing changes; otherwise both pads become `Poll` of the samples; the requested side's buttons are returned |
| Sega.SegaController.GetIsOn | lib/SegaController/SegaController.cpp:91-94 | whether the pad on that side is connected |
| Sega.SegaController.GetSixButtonMode | lib/SegaController/SegaController.cpp:96-99 | the six-button flag of that side |
| Menu.NavigateInRange | src/app_core_browser.cpp:206-239 | the moves of a key event keep the selection on the list |
| Menu.DownUpInverse | src/app_core_browser.cpp:206-221 | Up undoes Down and Down undoes Up, wrapping included |
| Menu.PageOf | src/app_core_browser.cpp:39 | the page of an entry is at least 1 |
| Menu.WindowHoldsSelection | src/app_core_browser.cpp:38-44 | the drawn window holds the selection, lies in the list, spans at most one page, starts on a page boundary, and its page is one of the list's pages |
| Menu.PageForwardNextPage | src/app_core_browser.cpp:224-230 | Right with a full page ahead moves to the next page at the same row |
| Menu.PageBackPreviousPage | src/app_core_browser.cpp:233-239 | Left from page 2 or later moves to the previous page at the same row |
| Text.LowerChar | src/app_file_loader.cpp:395 | upper-case ASCII letters map to lower case, all else is unchanged |
| Text.ToLowerAt | src/app_file_loader.cpp:395 | `toLowerCase` lowers each character in place |
| Text.ToLowerIdempotent | src/app_file_loader.cpp:395 | lowering twice is lowering once |
| Text.ToLowerAppend | src/app_core_browser.cpp:172 | lowering distributes over concatenation |
| Text.LeadingSpacesRun | src/app_file_loader.cpp:48 | the characters `trim` drops in front are white space, and the next one is not |
| Text.TrailingSpacesRun | src/app_file_loader.cpp:48 | the same at the end |
| Text.TrimShape | src/app_file_loader.cpp:48 | the trimmed string is a slice of the original with no white space at either edge; it is empty exactly when the original is all white space |
| Text.NoEdgeSpacesTrimmed | src/app_file_loader.cpp:48 | `trim` keeps a string without edge white space |
| Text.TrimIdempotent | src/app_file_loader.cpp:48 | trimming twice is trimming once |
| Text.StrLessIrreflexive | src/app_file_loader.cpp:396 | `String` `<` is irreflexive |
| Text.StrLessTransitive | src/app_file_loader.cpp:396 | `String` `<` is transitive |
| Text.StrLessTotal | src/app_file_loader.cpp:396 | distinct strings are ordered one way or the other |
| Text.LastFour | src/app_core_browser.cpp:171-172 | the last four characters (all of a shorter name) |
| Text.CharArray | src/app_core_browser.cpp:147 | `toCharArray` into a buffer of `size` keeps at most `size - 1` characters |
| Text.CharArrayPrefix | src/app_core_browser.cpp:147 | what `toCharArray` keeps is a prefix of the string |
| Text.CString | src/app_core_browser.cpp:153 | the C string of a byte buffer: the bytes up to the first NUL |
| Sorting.Sort | src/app_core_browser.cpp:199 | the sorted list is a permutation of the input |
| Sorting.SortSorted | src/app_core_browser.cpp:199 | for a strict weak order the result is sorted |
| CoreBrowser.GetItemFields | src/app_core_browser.cpp:142-159 | a list entry holds the name (at most 32 bytes, a prefix of the header's C string), order, type, visibility (non-zero byte) and build read from the core header, and the flash path or SD name |
| CoreBrowser.CStringPrefix | src/app_core_browser.cpp:153 | reading more header bytes only extends the name |
| CoreBrowser.CoreNameIgnoresCase | src/app_core_browser.cpp:172 | a core file is recognised whatever the case of its extension |
| CoreBrowser.Items | src/app_core_browser.cpp:161-197 | at most one entry per file |
| CoreBrowser.ItemsAreListed | src/app_core_browser.cpp:161-197 | every listed file has its entry in the list, and every entry comes from a listed file |
| CoreBrowser.OrderLessOrders | src/app_core_browser.cpp:279-281 | the order-byte comparison is a strict weak order, as `std::sort` needs |
| CoreBrowser.SortedByOrder | src/app_core_browser.cpp:199 | after sorting, the list is ascending by order byte and holds the same entries |
| CoreBrowser.StateFor | src/app_core_browser.cpp:252-257 | boot cores return to the core browser, file-loader cores open the file loader, anything else goes to the main OSD |
| CoreBrowser.Browser.constructor | src/app_core_browser.cpp:16-22 | an empty list with selection 0 |
| CoreBrowser.Browser.ReadList | src/app_core_browser.cpp:161-201 | the list becomes the sorted flash entries followed by the SD entries; it halts, unsorted, when the SD root does not open |
| CoreBrowser.Browser.AppendListed | src/app_core_browser.cpp:167-178 | one directory loop appends exactly its entries, in directory order |
| CoreBrowser.Browser.OnKeyboard | src/app_core_browser.cpp:203-277 | with cores listed, the selection moves as `Navigate`; Enter boots the trimmed file name (cut to 31 characters) and switches state by the core type; Space leaves the graphical OSD |
| CoreBrowser.Browser.Move | src/app_core_browser.cpp:206-239 | the four move tests in order |
| CoreOsd.LastWithOptions | src/app_core.cpp:110-113 | the last item with options, or 0 when none has |
| CoreOsd.NextVal | src/app_core.cpp:121-124 | the next option, wrapping to 0 after the last |
| CoreOsd.PrevVal | src/app_core.cpp:134-138 | the previous option, wrapping to the last; an item without options gets 255 |
| CoreOsd.CycleInverse | src/app_core.cpp:119-144 | on an item with options, Left undoes Right and Right undoes Left |
| CoreOsd.MovedInRange | src/app_core.cpp:94-117 | the Down and Up moves keep the current item inside the menu |
| CoreOsd.UpUndoesDown | src/app_core.cpp:94-117 | from an item with options, Up undoes Down |
| CoreOsd.CycledKeepsRange | src/app_core.cpp:119-144 | a value step keeps every item with options on one of its options |
| CoreOsd.RightLeftRestores | src/app_core.cpp:119-144 | Right and Left in the same event leave the value as it was |
| CoreOsd.Osd.constructor | src/app_core.cpp:12 | the first item is current and nothing needs saving |
| CoreOsd.Osd.LastOptionItem | src/app_core.cpp:110-113 | the scan's result is `LastWithOptions` |
| CoreOsd.Osd.Save | src/app_core.cpp:62-91 | on flash, or on a writable SD file, the item's value is written at `FILE_POS_SWITCHES_DATA + pos` and becomes its saved value; otherwise nothing changes |
| CoreOsd.Osd.OnKeyboard | src/app_core.cpp:93-153 | the current item moves, its value steps, `core_send` is called once per step, and a stepped switch is saved |
| CoreOsd.Osd.MoveItem | src/app_core.cpp:94-117 | the Down and Up tests |
| CoreOsd.Osd.StepValue | src/app_core.cpp:119-144 | the Right/Enter and Left tests |
| CoreOsd.Osd.StepUp | src/app_core.cpp:120-130 | the value moves to `NextVal`; a switch needs saving |
| CoreOsd.Osd.StepDown | src/app_core.cpp:133-144 | the value moves to `PrevVal`; a switch needs saving |
| FileIo.Fetch | src/file.cpp:39-55 | `n` bytes from `pos`, with zeros where the file has ended |
| FileIo.Put | src/file.cpp:107-120 | a written byte lands at its position, and every other byte is kept |
| FileIo.Be16 | src/file.cpp:39-55 | the value of two bytes fits 16 bits |
| FileIo.Be24 | src/file.cpp:57-73 | the value of three bytes fits 24 bits |
| FileIo.Be32 | src/file.cpp:75-90 | the value of four bytes fits 32 bits |
| FileIo.Be16RoundTrip | src/file.cpp:39-55 | a 16-bit value stored big-endian reads back, and two bytes read then stored are the same bytes |
| FileIo.BeExtends | src/file.cpp:57-90 | the 24- and 32-bit reads extend the 16-bit one byte by byte |
| FileIo.Be32Injective | src/file.cpp:75-90 | different 4-byte strings read as different values |
| FileIo.FlashName | src/file.cpp:92-100 | the flash name in a buffer of 2 or more bytes starts with '/', so `is_flashfs` accepts it, and it always leaves room for the NUL |
| FileIo.OpenFile.constructor | src/file.cpp:7-13 | an opened file holds its bytes, positioned at 0 |
| FileIo.OpenFile.Seek | src/file.cpp:7-13 | only the position moves |
| FileIo.OpenFile.ReadInto | src/file.cpp:15-29 | the buffer holds the bytes at `p`, zeros past the end of the file; the file is unchanged |
| FileIo.OpenFile.ReadBytes | src/file.cpp:23-29 | up to `n` bytes from the position, fewer where the file ends; the position moves past them |
| FileIo.OpenFile.Read16 | src/file.cpp:39-55 | the big-endian value of the two bytes at `p` |
| FileIo.OpenFile.Read24 | src/file.cpp:57-73 | the big-endian value of the three bytes at `p` |
| FileIo.OpenFile.Read32 | src/file.cpp:75-90 | the big-endian value of the four bytes at `p` |
| FileIo.OpenFile.Write | src/file.cpp:107-120 | the byte lands at the position, which moves past it |
| FileIo.OpenFile.Write16AsWritten | src/file.cpp:107-120 | as written, the high byte stored is 0, so the value reads back as its low byte |
| FileIo.OpenFile.Write16 | src/file.cpp:107-120 | the intended write stores high then low byte, and the value reads back |
| FileIo.Write16ReadBack | src/file.cpp:107-120 | the intended write reads back as the value, for every file and position |
| FileIo.FetchAfterPut | src/file.cpp:107-120 | two bytes written at `p` and `p + 1` read back from `p` in that order |
| FileIo.Write16AsWrittenReadBack | src/file.cpp:107-120 | the write as written reads back as the low byte alone |
| FileIo.Write16AsWrittenLoses | src/file.cpp:107-120 | writing 0x0100 as written reads back 0 |
| FileLoader.Dir | src/app_file_loader.cpp:47-50 | the directory is non-empty, starts with '/' and does not end in white space |
| FileLoader.DirIdempotent | src/app_file_loader.cpp:47-50 | normalising a normal directory changes nothing |
| FileLoader.DirKeepsRooted | src/app_file_loader.cpp:47-50 | a trimmed directory starting with '/' is kept as it is |
| FileLoader.FullPathJoins | src/app_file_loader.cpp:242-251 | while it fits, the full path is directory + "/" + trimmed name |
| FileLoader.Stored | src/app_file_loader.cpp:87 | a name is stored with its own length |
| FileLoader.Accepted | src/app_file_loader.cpp:83-94 | the scan keeps at most one name per directory entry |
| FileLoader.ScanNames | src/app_file_loader.cpp:83-94 | at most `MAX_FILES` names are written |
| FileLoader.IndexTextAppend | src/app_file_loader.cpp:88-89 | each name is written followed by a newline |
| FileLoader.LineEnd | src/app_file_loader.cpp:103 | `readStringUntil('\n')` stops at the first newline |
| FileLoader.LinesCons | src/app_file_loader.cpp:102-103 | a line without a newline, followed by one, is read as that one line and then the rest |
| FileLoader.IndexRoundTrip | src/app_file_loader.cpp:100-111 | reading back an index of newline-free names splits it into exactly the names written |
| FileLoader.KeptAll | src/app_file_loader.cpp:104-109 | lines of 1 to 32 characters are all kept, trimmed |
| FileLoader.StoredIndexable | src/app_file_loader.cpp:86-87 | a name the scan writes is 1 to 32 characters without a newline |
| FileLoader.AcceptedIndexable | src/app_file_loader.cpp:83-94 | every name the scan accepts can be written to the index and read back |
| FileLoader.ScanThenRead | src/app_file_loader.cpp:70-113 | the list read from a freshly written index is the scanned names, trimmed, and has at most `MAX_FILES` entries |
| FileLoader.NameLessOrders | src/app_file_loader.cpp:392-397 | the case-insensitive name order is a strict weak order |
| FileLoader.SortedList | src/app_file_loader.cpp:127 | the sorted list is sorted by that order and a permutation of what was read |
| FileLoader.Spi | src/app_file_loader.cpp:376-390 | one SPI frame per loader frame, in order |
| FileLoader.SpiAppend | src/app_file_loader.cpp:376-390 | translating frames distributes over concatenation |
| FileLoader.ReplayAppend | src/app_file_loader.cpp:376-390 | the FPGA-side receiver processes frames one after the other |
| FileLoader.Enumerate | src/app_file_loader.cpp:283-298 | every byte of the file paired with its address |
| FileLoader.ByteDelivered | src/app_file_loader.cpp:376-390 | with the bank registers current, `send_byte` makes the receiver store the byte at its full address |
| FileLoader.BankBoundaryDelivered | src/app_file_loader.cpp:378-386 | at a 256-byte boundary the three bank frames latch the new high address bytes |
| FileLoader.InsideBankDelivered | src/app_file_loader.cpp:388-389 | inside a bank the latched high bytes are already the address's |
| FileLoader.FileDelivered | src/app_file_loader.cpp:274-298 | after the reset pulse and the byte loop, the receiver has stored every byte of the file at its own address, in order |
| FileLoader.AnyMatch | src/app_file_loader.cpp:136-138 | some entry equals the last file after trimming |
| FileLoader.LastMatch | src/app_file_loader.cpp:134-149 | the selection after restoring is the last matching entry, or unchanged when none matches |
| FileLoader.RestoredSel | src/app_file_loader.cpp:134-149 | a `read_list` from the first entry leaves the selection on a non-empty list, on a matching entry when one matches |
| FileLoader.RestoreFindsSaved | src/app_file_loader.cpp:134-149 | with distinct trimmed names, restoring a saved entry selects it again |
| FileLoader.Loader.constructor | src/app_file_loader.cpp:16-21 | an empty list with selection 0 |
| FileLoader.Loader.SendByte | src/app_file_loader.cpp:376-390 | sends exactly `ByteFrames(addr, data)` |
| FileLoader.Loader.SendFile | src/app_file_loader.cpp:230-310 | sends the load frames when the full path opens, nothing otherwise |
| FileLoader.Loader.SendBytes | src/app_file_loader.cpp:283-298 | the byte loop sends the frames of every byte, numbered by the counter |
| FileLoader.Loader.RestoreLast | src/app_file_loader.cpp:134-149 | every matching entry is selected and sent; the OSD starts hiding if one matched |
| FileLoader.Loader.RestoreAt | src/app_file_loader.cpp:136-147 | one pass of the restore loop |
| FileLoader.Loader.ReadList | src/app_file_loader.cpp:23-150 | rebuilds the index when forced or missing, reads it, sorts the list and restores the last file; nothing changes when the card or the directory fails |
| FileLoader.Loader.LoadIndex | src/app_file_loader.cpp:70-127 | the index and list part of `read_list` |
| FileLoader.Loader.Save | src/app_file_loader.cpp:213-228 | the selected name becomes the last file when the core file opens writable |
| FileLoader.Loader.Load | src/app_file_loader.cpp:358-367 | Enter saves, sends the selected file and starts hiding the OSD |
| FileLoader.Loader.OnKeyboard | src/app_file_loader.cpp:312-374 | with files listed, the selection moves as `Navigate`; Enter loads the selected file |
| FileLoader.Loader.Rescan | src/app_file_loader.cpp:351-367 | R sets the selection to 0 and forces `read_list`: the index is rebuilt, the list re-read and sorted, and the last file restored and sent; with Enter held and a non-empty list, the selected entry is then saved, sent and the OSD hidden |
| FileLoader.Loader.Reload | src/app_file_loader.cpp:351-355 | the state after `file_sel = 0` and a forced `read_list`: rebuilt index, re-read list, restored selection, hiding and restore frames |
| FileLoader.Loader.Move | src/app_file_loader.cpp:315-349 | the four move tests in order |
| HidReports.ParseKbd | src/hid_app.cpp:53 | a boot keyboard report has six keycode slots |
| HidReports.FieldsAt | src/hid_app.cpp:82-84 | value i of a report goes to register i of its command |
| HidReports.FirstWithId | src/hid_app.cpp:172-179 | the first description with the report's ID, or none when no description has it |
| HidReports.Lookup | src/hid_app.cpp:162-183 | a simple descriptor takes the whole report; otherwise the first description with the report's first byte as ID takes the bytes after it, and there is one exactly when some description has that ID |
| HidReports.HandlerFor | src/hid_app.cpp:199-223 | Generic Desktop keyboards, mice and gamepads go to their handlers; every other usage to none |
| HidReports.FindReport | src/hid_app.cpp:162-183 | the search loop returns `Lookup` |
| HidReports.FirstIsFirst | src/hid_app.cpp:172-179 | a match with no match before it is the one the search returns |
| HidApp.KbdChangeIsModifier | src/hid_app.cpp:79-80 | a keyboard report is forwarded exactly when its modifier byte changed |
| HidApp.MouseChangeIsDifference | src/hid_app.cpp:103-107 | a mouse report is forwarded exactly when it differs from the kept one |
| HidApp.MouseChangeDiffers | src/hid_app.cpp:103-107 | the change test passes only for a report that differs |
| HidApp.MouseDifferenceChanges | src/hid_app.cpp:103-107 | a report that differs passes the change test |
| HidApp.PadPressedIsNewlySet | src/hid_app.cpp:121-123 | a gamepad report is forwarded exactly when a hat bit or a low-byte button bit is newly set |
| HidApp.KbdFramesLayout | src/hid_app.cpp:81-84 | the modifier goes to register 0 and keycode i to register i + 1 |
| HidApp.MouseFramesLayout | src/hid_app.cpp:108-111 | x, y, wheel, buttons go to registers 0 to 3 |
| HidApp.PadFramesLayout | src/hid_app.cpp:124-125 | the hat goes to register 0 and the low button byte to register 1 |
| HidApp.HidHost.constructor | src/hid_app.cpp:77 | all kept reports start zeroed |
| HidApp.HidHost.ProcessKbd | src/hid_app.cpp:75-97 | a changed report is queued and kept; an unchanged one changes nothing |
| HidApp.HidHost.QueueKbd | src/hid_app.cpp:81-84 | queues exactly the report's seven frames |
| HidApp.HidHost.ProcessMouse | src/hid_app.cpp:99-116 | a changed report is queued and kept; an unchanged one changes nothing |
| HidApp.HidHost.ProcessGamepad | src/hid_app.cpp:118-148 | the report is queued when a button was newly pressed, and always kept |
| HidApp.HidHost.ProcessGeneric | src/hid_app.cpp:154-224 | the looked-up report goes to the handler of its usage; an unknown ID or usage changes nothing |
| HidApp.HidHost.ReportReceived | src/hid_app.cpp:43-73 | the keyboard protocol has `process_kbd_report`'s effect, the mouse protocol `process_mouse_report`'s, and every other protocol `process_generic_report`'s (lookup, then the handler of the usage, or no effect) |
| HostHid.NewKeysExactly | src/main.cpp:238-257 | a key is reported exactly when it is pressed now, is not zero, and was not in the previous report |
| HostHid.NewKeys | src/main.cpp:238-257 | no more keys are reported than the report holds |
| HostHid.HeldKeysSilent | src/main.cpp:242-244 | holding keys already held reports nothing |
| HostHid.FindKeyInReport | src/main.cpp:223-231 | true exactly when the keycode is in one of the six slots |
| HostHid.HostHandlers.constructor | src/main.cpp:235 | all kept reports start zeroed |
| HostHid.HostHandlers.ProcessKbd | src/main.cpp:233-260 | reports the newly pressed keys in slot order, then keeps the report |
| HostHid.HostHandlers.ProcessMouse | src/main.cpp:262-277 | the report is kept |
| HostHid.HostHandlers.ProcessGamepad | src/main.cpp:279-305 | the report is kept |
| HostHid.HostHandlers.ProcessGeneric | src/main.cpp:311-381 | the looked-up report goes to the handler of its usage; anything else changes nothing |
| HostHid.HostHandlers.ReportReceived | src/main.cpp:188-220 | the keyboard protocol reports the new keys and keeps the report, the mouse protocol keeps the mouse report, each leaving the other kept reports alone; every other protocol has `process_generic_report`'s effect |
| HidDriver.DigitChar | src/hid_driver.cpp:26-27 | the character of a digit value is a digit of that value |
| HidDriver.DigitValue | src/hid_driver.cpp:26-27 | a digit's value is below the base |
| HidDriver.Render | src/hid_driver.cpp:26-27 | a number is written as a non-empty string of digits |
| HidDriver.Decimal | src/hid_driver.cpp:53-55 | an `int` in decimal is never empty |
| HidDriver.DigitRunAll | src/hid_driver.cpp:26-27 | a string of digits is read whole |
| HidDriver.DigitsPass | src/hid_driver.cpp:26-27 | a string of digits passes unchanged through the space, sign and prefix steps |
| HidDriver.ScanDigits | src/hid_driver.cpp:26-27 | digits alone scan as their value, positive |
| HidDriver.ScanNegative | src/hid_driver.cpp:53-55 | a minus sign and digits scan as their value, negative |
| HidDriver.DigitRun | src/hid_driver.cpp:26-27 | the longest run of digits at the front: a prefix of digits, followed by a non-digit or the end |
| HidDriver.AfterSpaces | src/hid_driver.cpp:26-27 | leading white space is skipped |
| HidDriver.Unsigned16 | src/hid_driver.cpp:26-27 | `strtoul(s, 0, 16)` never exceeds `ULONG_MAX` |
| HidDriver.Atoi | src/hid_driver.cpp:53-55 | `atoi` stays in the `int` range and is 0 when there are no digits |
| HidDriver.ValueRender | src/hid_driver.cpp:26-27 | the digits of a number read back as the number |
| HidDriver.ScanRender | src/hid_driver.cpp:53-55 | the digits of a number, and a minus sign before them, scan as that magnitude with the right sign |
| HidDriver.HexRoundTrip | src/hid_driver.cpp:26-27 | a 32-bit ID written in hexadecimal, with or without "0x", reads back as itself |
| HidDriver.DecimalRoundTrip | src/hid_driver.cpp:53-55 | every `int` written in decimal reads back as itself through `atoi` |
| HidDriver.TokensShape | src/hid_driver.cpp:45-51 | every token `strtok` returns is non-empty and has no comma |
| HidDriver.ToksShape | src/hid_driver.cpp:45-51 | every token of a partial split is non-empty and has no comma |
| HidDriver.ToksRun | src/hid_driver.cpp:45-51 | characters other than commas extend the current token |
| HidDriver.SplitJoin | src/hid_driver.cpp:45-51 | splitting tokens joined with commas gives the tokens back |
| HidDriver.Split | src/hid_driver.cpp:42-51 | the `strtok` loop stores exactly the tokens of the buffer, in order |
| HidDriver.ParseMappingAsWritten | src/hid_driver.cpp:53-55 | as written, the parse reads only initialised tokens exactly when there are 3 or 4 of them |
| HidDriver.ParseMappingAgrees | src/hid_driver.cpp:53-55 | wherever the code as written is defined, the corrected parse gives the same mapping |
| HidDriver.MappingRoundTrip | src/hid_driver.cpp:53-55 | "pos,bit,val" and "pos,bit" written in decimal parse back to that mapping (isBit exactly when bit is 1, val 0 when absent) |
| HidDriver.DecimalNoComma | src/hid_driver.cpp:53-55 | a decimal number is a valid token |
| HidDriver.ShortTokens | src/hid_driver.cpp:45-51 | "5" splits into one token and "5,1" into two |
| HidDriver.ParseMappingAsWrittenReadsUnset | src/hid_driver.cpp:53-55 | "5" and "5,1" make the code as written read an unset token, while the corrected parse gives position 5, bit, value 0 for "5,1" |
| HidDriver.DigitAtoi | src/hid_driver.cpp:53-55 | a single decimal digit reads as its value |
| HidDriver.DriverPath | src/hid_driver.cpp:15-17 | the path is a prefix of "/drivers/" + name and fits the 64-byte buffer |
| HidDriver.Driver | src/hid_driver.cpp:9-62 | a configuration always has twelve button entries |
| HidDriver.DriverFields | src/hid_driver.cpp:9-62 | a file that does not open or validate gives the zeroed configuration; otherwise vid and pid are the hexadecimal values or 0, and each button has its fixed code, is available exactly when its key is present, and then holds the parsed mapping |
| HidDriver.LoadButton | src/hid_driver.cpp:33-57 | one pass of the button loop gives `ButtonFor` |
| HidDriver.Load | src/hid_driver.cpp:9-62 | the configuration loaded is `Driver(volume, filename)` |
| HidDriver.LowerExt | src/hid_driver.cpp:73 | `strlwr` changes only the last four characters |
| HidDriver.IniNames | src/hid_driver.cpp:70-78 | at most one name per directory entry |
| HidDriver.IniNamesShape | src/hid_driver.cpp:70-78 | every name loaded ends in ".ini" and comes from a listed name, cut to 31 characters, with its extension lowered |
| HidDriver.IniNamesComplete | src/hid_driver.cpp:70-78 | every listed name ending in ".ini" in any case is loaded |
| HidDriver.Drivers | src/hid_driver.cpp:64-81 | one configuration per name |
| HidDriver.LoadAll | src/hid_driver.cpp:64-81 | with a card and an openable `/drivers`, the drivers loaded are those of the ".ini" names in directory order; otherwise none |

## Left out

- Drawing and screen output is not modelled. This covers the text OSD (`zxosd`), the FT812 drawing
  routines (`drawRect`, `drawText`, …), the menu bodies and their footers. The display-list words
  those routines build are modelled by their encoders.
- `core_send`, `do_configure`, `spi_send` and `spi_queue` are not part of this model. They become
  entries in an outgoing log (`Channel`, the `sent` sequences).
- Delays and polling are parameters: `delay`, `FT812::wait`'s busy loop, the `REG_ID` and
  `REG_CPURESET` polling loops of `FT812::init`, and `millis()`.
- FT812.Ft812.Await: the NOP frame (`0xFF, 0, 0`) that `FT812::wait` sends on each poll is not
  logged; the reply bytes it waits for are a parameter.
- RtcBridge.Rtc.Handle: the `event()` callback that follows `sendTime()` is code outside this model
  and is not modelled.
- `FT812::init` is modelled only as far as the timing registers (`ConfigureTiming`). The reset and
  clock commands, the display-list start and the interrupt set-up are left out.
- The Sega pad's pins are sampled values supplied per cycle. The `SC_*` bit values come from a
  header outside this model, so buttons are a record of flags.
- `bin2bcd`, `bcd2bin`, `time_to12h` and `get_year` come from headers outside this model. The
  standard definitions are used (v + 6·(v/10), v − 6·(v>>4), hour 0 → 12), with 8-bit wrap-around.
- The DS3231 and I2C EEPROM drivers are modelled by their effect. Clock writes form a log; the
  EEPROM is a 1024-byte image plus the core's 256-byte image.
- Floating point: the `ceil` of the menus' page arithmetic is computed exactly in integers.
- `hid_app.cpp` and `main.cpp` both define the report callbacks; the two are modelled separately.
  `hid_app.h`'s key translation to ASCII and the serial prints in `main.cpp` are left out.
- USB reports shorter than their layout are read as zero-padded. The firmware reads past the
  report there.
- `hid_joy_config_t`, `IniFile.h` and `SegaController.h`'s button codes are not part of this model.
  Field widths are not modelled: vid/pid keep the `strtoul` result and pos/val the `atoi` result.
  Button codes are the abstract `PadButton`. The INI reader is a map from (section, key) to value;
  `validate` is the file's `valid` flag.
- `strtoul`/`atoi` follow newlib: saturation at the range ends, and `strtoul` wraps a minus sign.
- `hid_drivers_dump` (serial output only) is left out. The capacity of `joy_drivers` is not in the
  source, so the driver list is unbounded.
- CoreBrowser.Browser.ReadList: requires the list to fit `MAX_CORES`; the source writes past
  `cores` otherwise.
- FileLoader.Loader.ReadList and FileLoader.Loader.LoadIndex: require an existing `index.db` that is
  read without a rebuild to keep at most `MAX_FILES` (255) lines. The source writes past `files`
  and wraps the 8-bit `files_len` otherwise. A freshly written index never exceeds it
  (`ScanThenRead`).
- FileLoader.Loader.SendFile: streams the bytes of a file that reads successfully. A failing read
  returns -1 to `while (c = file2.read(...))`, which counts as true with an empty inner loop, so the
  source spins forever there; read errors are not modelled.
- Text.LastFour: for a name shorter than four characters the source forms `filename + (len - 4)`,
  a pointer before the buffer (`src/app_core_browser.cpp:171-172`, `src/app_file_loader.cpp:86-87`,
  `src/hid_driver.cpp:73`). The model takes the whole name there.
- CoreBrowser.GetItem: requires a file at least as long as the core header. For shorter files the
  source reads bytes that are not there.
- CoreBrowser.Browser.OnKeyboard: Space also switches the FT812 off (`vga(false)`, `spi(false)`);
  only the `has_ft` flag is modelled.
- CoreBrowser.Browser.OnKeyboard and FileLoader.Loader.OnKeyboard: require the selection to be on
  the list or 0. `read_list` does not reset the selection when the list shrinks.
- The SD branch of `file_get_name` (`src/file.cpp:97`) is not modelled. It passes `sizeof(buf)`, the size of a pointer, as
  the buffer length, and no caller in the firmware takes that branch. The menus read SD names with `getName` into their
  own arrays, and the model cuts those names to fit the array, as `toCharArray` does.
- Sorting.Sort: `std::sort` is modelled as a stable insertion sort. For entries with equal keys the
  source's order is unspecified, and so is the model's choice.
- FileLoader.Loader.OnKeyboard and FileLoader.Loader.Rescan: R is handled on its own, because it
  re-reads the list in the middle of the handler. An Enter held with R loads the selected entry
  of the new list. The one case not modelled is a new list that is empty: the source then saves
  and sends the stale `files[0]`, and the model does nothing.
- CoreOsd.Osd.Save: the flash branch does not check that the file opened, and the model does the same.
- FT812.Ft812.ConfigureTiming: does not itself ensure `TimingFits`. The lemma `ModeTimingFits`
  proves it for every table mode.
- FT812.Ft812.SendText: the source's trailing `endCmd(0)` after the loop cannot be reached for a
  NUL-terminated string, and is not modelled.
- FT812.Ft812.Read32: the source assembles the value in `int` arithmetic; the model uses the 32-bit
  pattern, which is the same bits.
- FT812.ClearColorRgb: stated for byte-sized colour components; larger values spill into the
  neighbouring fields, as in the macro.
- FT812.Begin: stated for primitives below 2^24.
- FT812.Clear: stated for flags 0 or 1, as the firmware passes them; the macro shifts the values
  unmasked, so larger ones spill into the neighbouring bits.
- FT812.Vertex2ii: stated for coordinates below 512, handles below 32 and cells below 128.
- FT812.BitmapSource: stated for addresses below 2^24.
- FT812.BitmapLayout: stated for formats below 32.
- FT812.BlendFunc: stated for factors below 8.
- RtcBridge.Rtc.Handle: requires `millis` below 2^32; the elapsed-time test uses the unsigned
  32-bit difference.

## Findings

| source | as written | input that shows it | evidently intended | confidence | as-written member | corrected member |
|---|---|---|---|---|---|---|
| src/file.cpp:107-120 | `file_write16` writes `(uint8_t) val >> 8`: the cast binds first, so the high byte is always 0 | `val = 0x0100` reads back as 0 | the high byte `(uint8_t)(val >> 8)` first, then the low byte | not executed | FileIo.OpenFile.Write16AsWritten | FileIo.OpenFile.Write16 |
| src/hid_driver.cpp:53-55 | `isBit` reads `strings[1]` when `idx > 0` and `val` reads `strings[2]` when `idx > 1`: one token too early, so unset pointers are read | mapping "5,1" (and "5") | read `strings[1]` only when `idx > 1` and `strings[2]` only when `idx > 2` | not executed | HidDriver.ParseMappingAsWritten | HidDriver.ParseMapping |
| lib/FT812/FT812.cpp:50 | `VERTEX2F` masks each coordinate to 16 bits, but the fields are 15 bits wide: a negative y sets bit 0 of x | x = 0, y = -1 gives x = 1 | mask each coordinate with 0x7FFF | not executed | FT812.Vertex2fAsWritten | FT812.Vertex2f |
