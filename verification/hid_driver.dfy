// The joystick drivers on the SD card: each `/drivers/*.ini` file names a
// USB gamepad by vendor and product ID (hexadecimal) and maps each of the
// twelve Sega pad buttons to a byte of its report, either one bit of that
// byte or one value of it ("pos,isBit,val").
//
// The INI reader is not part of this model: a driver file is its open and
// validate outcomes and a map from (section, key) to the value text.

module HidDriver {
  import opened Common
  import opened Text

  // ---------------------------------------------------------------------
  // Number conversions of the C library (newlib): `strtoul(s, 0, 16)` and
  // `atoi`, i.e. `strtol(s, 0, 10)` narrowed to `int`.
  // ---------------------------------------------------------------------

  const ULONG_MAX: nat := 0xFFFF_FFFF
  const INT_MAX: int := 0x7FFF_FFFF
  const INT_MIN: int := -0x8000_0000

  /** A digit of base 10 or 16; hexadecimal letters in either case. */
  predicate IsDigitIn(c: char, base: nat)
  {
    '0' <= c <= '9' || (base == 16 && ('a' <= c <= 'f' || 'A' <= c <= 'F'))
  }

  predicate AllDigits(s: string, base: nat)
  {
    forall i :: 0 <= i < |s| ==> IsDigitIn(s[i], base)
  }

  function DigitValue(c: char, base: nat): (d: nat)
    requires base == 10 || base == 16
    requires IsDigitIn(c, base)
    ensures d < base
  {
    if '0' <= c <= '9' then c as int - '0' as int
    else if 'a' <= c <= 'f' then c as int - 'a' as int + 10
    else c as int - 'A' as int + 10
  }

  /** The character of a digit value, lower-case for 10..15. */
  function DigitChar(d: nat, base: nat): (c: char)
    requires base == 10 || base == 16
    requires d < base
    ensures IsDigitIn(c, base) && DigitValue(c, base) == d
  {
    if d < 10 then ('0' as int + d) as char else ('a' as int + d - 10) as char
  }

  /** The longest run of digits at the start of `s`. */
  function DigitRun(s: string, base: nat): (r: string)
    ensures r <= s && AllDigits(r, base)
    ensures |r| < |s| ==> !IsDigitIn(s[|r|], base)
  {
    if s != [] && IsDigitIn(s[0], base) then [s[0]] + DigitRun(s[1..], base) else []
  }

  /** The value of a digit string, most significant digit first. */
  function Value(ds: string, base: nat): nat
    requires base == 10 || base == 16
    requires AllDigits(ds, base)
  {
    if ds == [] then 0 else Value(ds[..|ds| - 1], base) * base + DigitValue(ds[|ds| - 1], base)
  }

  /** The text after the leading white space. */
  function AfterSpaces(s: string): (t: string)
    ensures t == [] || !IsSpace(t[0])
  {
    LeadingSpacesRun(s);
    s[LeadingSpaces(s)..]
  }

  /** The text after one optional sign. */
  function AfterSign(t: string): string
  {
    if t != [] && (t[0] == '-' || t[0] == '+') then t[1..] else t
  }

  /** The text after an optional "0x" or "0X", which only base 16 accepts. */
  function AfterPrefix(u: string, base: nat): string
  {
    if base == 16 && |u| >= 2 && u[0] == '0' && (u[1] == 'x' || u[1] == 'X') then u[2..] else u
  }

  /**
   * What `strtol`/`strtoul` read: white space is skipped, then one optional
   * sign, then (in base 16) an optional "0x" or "0X", then the digits.
   * The result is whether the number is negative and its magnitude.
   */
  function Scan(s: string, base: nat): (r: (bool, nat))
    requires base == 10 || base == 16
  {
    var t := AfterSpaces(s);
    (t != [] && t[0] == '-', Value(DigitRun(AfterPrefix(AfterSign(t), base), base), base))
  }

  /**
   * `strtoul(s, 0, 16)`: a magnitude past `ULONG_MAX` saturates, and a
   * negative number wraps modulo 2^32.
   */
  function Unsigned16(s: string): (v: nat)
    ensures v <= ULONG_MAX
  {
    var n := Scan(s, 16).1;
    if n > ULONG_MAX then ULONG_MAX
    else if Scan(s, 16).0 && n > 0 then ULONG_MAX + 1 - n
    else n
  }

  /** `atoi`: the `strtol` result, saturated at the ends of the `long` (= `int`) range. */
  function Atoi(s: string): (v: int)
    ensures INT_MIN <= v <= INT_MAX
    ensures Scan(s, 10).1 == 0 ==> v == 0
  {
    var n := Scan(s, 10).1;
    if Scan(s, 10).0 then (if n > -INT_MIN then INT_MIN else -(n as int))
    else if n > INT_MAX then INT_MAX
    else n
  }

  /** The digits of `v`, most significant first, with no leading zero. */
  function Render(v: nat, base: nat): (r: string)
    requires base == 10 || base == 16
    ensures r != [] && AllDigits(r, base)
  {
    if v < base then [DigitChar(v, base)] else Render(v / base, base) + [DigitChar(v % base, base)]
  }

  /** A decimal number as a configuration file writes it. */
  function Decimal(v: int): (r: string)
    ensures r != []
  {
    if v < 0 then "-" + Render(-v, 10) else Render(v, 10)
  }

  /** Reading the digits of a number gives the number back. */
  lemma {:induction false} ValueRender(v: nat, base: nat)
    requires base == 10 || base == 16
    ensures Value(Render(v, base), base) == v
  {
    if v >= base {
      var r := Render(v, base);
      ValueRender(v / base, base);
      assert r[..|r| - 1] == Render(v / base, base);
    }
  }

  /** A string made only of digits is one whole run of digits. */
  lemma {:induction false} DigitRunAll(s: string, base: nat)
    requires AllDigits(s, base)
    ensures DigitRun(s, base) == s
  {
    if s != [] {
      DigitRunAll(s[1..], base);
    }
  }

  /** A run of digits passes the space, sign and prefix steps unchanged. */
  lemma DigitsPass(s: string, base: nat)
    requires s != [] && AllDigits(s, base)
    ensures AfterSpaces(s) == s && AfterSign(s) == s && AfterPrefix(s, base) == s
  {
    assert IsDigitIn(s[0], base);
    assert LeadingSpaces(s) == 0;
    if |s| >= 2 {
      assert IsDigitIn(s[1], base);
    }
  }

  /** A run of digits alone is read as its value. */
  lemma ScanDigits(s: string, base: nat)
    requires base == 10 || base == 16
    requires s != [] && AllDigits(s, base)
    ensures Scan(s, base) == (false, Value(s, base))
  {
    DigitsPass(s, base);
    DigitRunAll(s, base);
  }

  /** A minus sign and a run of digits is read as a negative number of that magnitude. */
  lemma ScanNegative(s: string, base: nat)
    requires base == 10 || base == 16
    requires s != [] && AllDigits(s, base)
    ensures Scan("-" + s, base) == (true, Value(s, base))
  {
    var m := "-" + s;
    assert LeadingSpaces(m) == 0;
    assert AfterSpaces(m) == m;
    assert AfterSign(m) == s;
    DigitsPass(s, base);
    DigitRunAll(s, base);
  }

  /** The scan of the digits of a number and of its negation. */
  lemma ScanRender(v: nat, base: nat)
    requires base == 10 || base == 16
    ensures Scan(Render(v, base), base) == (false, v)
    ensures Scan("-" + Render(v, base), base) == (true, v)
  {
    ValueRender(v, base);
    ScanDigits(Render(v, base), base);
    ScanNegative(Render(v, base), base);
  }

  /** A value written in hexadecimal, with or without "0x", reads back as that value. */
  lemma HexRoundTrip(v: nat)
    requires v <= ULONG_MAX
    ensures Unsigned16(Render(v, 16)) == v
    ensures Unsigned16("0x" + Render(v, 16)) == v
  {
    ScanRender(v, 16);
    var r := Render(v, 16);
    var m := "0x" + r;
    assert LeadingSpaces(m) == 0;
    assert AfterSpaces(m) == m && AfterSign(m) == m && AfterPrefix(m, 16) == r;
    ValueRender(v, 16);
    DigitRunAll(r, 16);
  }

  /** Every `int` written in decimal reads back as itself. */
  lemma DecimalRoundTrip(v: int)
    requires INT_MIN <= v <= INT_MAX
    ensures Atoi(Decimal(v)) == v
  {
    if v < 0 {
      assert Decimal(v) == "-" + Render(-v, 10);
      ScanRender(-v, 10);
    } else {
      assert Decimal(v) == Render(v, 10);
      ScanRender(v, 10);
    }
  }

  // ---------------------------------------------------------------------
  // The `strtok(buffer, ",")` split.
  // ---------------------------------------------------------------------

  /**
   * The tokens of `s` after a partial token `cur`: maximal runs of
   * characters other than ',' — empty runs between adjacent commas and at
   * either end produce no token.
   */
  function Toks(s: string, cur: string): seq<string>
  {
    if s == [] then (if cur == [] then [] else [cur])
    else if s[0] == ',' then (if cur == [] then [] else [cur]) + Toks(s[1..], [])
    else Toks(s[1..], cur + [s[0]])
  }

  function Tokens(s: string): seq<string>
  {
    Toks(s, [])
  }

  /** A token is never empty and never holds the delimiter. */
  predicate IsToken(t: string)
  {
    t != [] && ',' !in t
  }

  lemma {:induction false} ToksShape(s: string, cur: string)
    requires ',' !in cur
    ensures forall t :: t in Toks(s, cur) ==> IsToken(t)
  {
    if s != [] {
      if s[0] == ',' {
        ToksShape(s[1..], []);
      } else {
        ToksShape(s[1..], cur + [s[0]]);
      }
    }
  }

  /** Every token of a split is a non-empty string without commas. */
  lemma TokensShape(s: string)
    ensures forall t :: t in Tokens(s) ==> IsToken(t)
  {
    ToksShape(s, []);
  }

  /** The tokens joined with single commas. */
  function Join(ts: seq<string>): string
  {
    if ts == [] then [] else if |ts| == 1 then ts[0] else ts[0] + "," + Join(ts[1..])
  }

  /** Characters other than commas extend the partial token. */
  lemma {:induction false} ToksRun(t: string, rest: string, cur: string)
    requires ',' !in t
    ensures Toks(t + rest, cur) == Toks(rest, cur + t)
  {
    if t != [] {
      assert (t + rest)[1..] == t[1..] + rest;
      ToksRun(t[1..], rest, cur + [t[0]]);
      assert cur + [t[0]] + t[1..] == cur + t;
    } else {
      assert t + rest == rest && cur + t == cur;
    }
  }

  /** Splitting tokens joined with commas gives the tokens back. */
  lemma {:induction false} SplitJoin(ts: seq<string>)
    requires forall i :: 0 <= i < |ts| ==> IsToken(ts[i])
    ensures Tokens(Join(ts)) == ts
  {
    if |ts| == 1 {
      ToksRun(ts[0], [], []);
      assert ts[0] + [] == ts[0];
    } else if |ts| > 1 {
      var rest := Join(ts[1..]);
      SplitJoin(ts[1..]);
      assert ts[0] + "," + rest == ts[0] + ("," + rest);
      ToksRun(ts[0], "," + rest, []);
      assert [] + ts[0] == ts[0];
      assert ("," + rest)[1..] == rest;
    }
  }

  /** The `strtok` loop: each token found is stored in turn. */
  method Split(buffer: string) returns (strings: seq<string>)
    ensures strings == Tokens(buffer)
  {
    strings := [];
    var cur: string := [];
    var i := 0;
    while i < |buffer|
      invariant 0 <= i <= |buffer|
      invariant strings + Toks(buffer[i..], cur) == Tokens(buffer)
    {
      assert buffer[i..][1..] == buffer[i + 1..];
      if buffer[i] == ',' {
        if cur != [] {
          AppendAssoc(strings, [cur], Toks(buffer[i + 1..], []));
          strings := strings + [cur];
          cur := [];
        }
      } else {
        cur := cur + [buffer[i]];
      }
      i := i + 1;
    }
    if cur != [] {
      strings := strings + [cur];
    }
  }

  // ---------------------------------------------------------------------
  // One button's mapping "pos,isBit,val".
  // ---------------------------------------------------------------------

  /** Where a pad button is found in the gamepad's report. */
  datatype Mapping = Mapping(pos: int, isBit: bool, val: int)

  /** The four entries of `char *strings[4]`. */
  const MAX_FIELDS: nat := 4

  /**
   * The field parse as written: `pos` reads `strings[0]`, `isBit` reads
   * `strings[1]` whenever `idx > 0`, and `val` reads `strings[2]` whenever
   * `idx > 1`. None where the code reads an entry the split loop never
   * set, or where the loop stores past the last entry.
   */
  function ParseMappingAsWritten(strings: seq<string>): (r: Option<Mapping>)
    ensures r.Some? <==> 3 <= |strings| <= MAX_FIELDS
  {
    var idx := |strings|;
    if idx > MAX_FIELDS then None
    else if idx == 0 then None
    else if idx > 0 && idx <= 1 then None
    else if idx > 1 && idx <= 2 then None
    else Some(Mapping(Atoi(strings[0]), idx > 0 && Atoi(strings[1]) == 1, if idx > 1 then Atoi(strings[2]) else 0))
  }

  /**
   * The field parse as intended: every field that is present is read, a
   * missing `isBit` is false and a missing `pos` or `val` is 0; fields past
   * the fourth are not stored.
   */
  function ParseMapping(strings: seq<string>): Mapping
  {
    var idx := if |strings| > MAX_FIELDS then MAX_FIELDS else |strings|;
    Mapping(if idx > 0 then Atoi(strings[0]) else 0,
            idx > 1 && Atoi(strings[1]) == 1,
            if idx > 2 then Atoi(strings[2]) else 0)
  }

  /** Wherever the code as written is defined, the corrected parse agrees with it. */
  lemma ParseMappingAgrees(strings: seq<string>)
    ensures ParseMappingAsWritten(strings).Some? ==> ParseMappingAsWritten(strings).value == ParseMapping(strings)
  {
  }

  /**
   * A line "pos,isBit,val" of three `int`s parses to exactly those values,
   * and the two-field form "pos,isBit" gives a value of 0.
   */
  lemma MappingRoundTrip(pos: int, bit: int, val: int)
    requires INT_MIN <= pos <= INT_MAX && INT_MIN <= bit <= INT_MAX && INT_MIN <= val <= INT_MAX
    ensures ParseMapping(Tokens(Decimal(pos) + "," + Decimal(bit) + "," + Decimal(val))) == Mapping(pos, bit == 1, val)
    ensures ParseMapping(Tokens(Decimal(pos) + "," + Decimal(bit))) == Mapping(pos, bit == 1, 0)
  {
    var p, b, v := Decimal(pos), Decimal(bit), Decimal(val);
    DecimalNoComma(pos);
    DecimalNoComma(bit);
    DecimalNoComma(val);
    assert Join([v]) == v;
    assert Join([b, v]) == b + "," + v;
    assert Join([p, b, v]) == p + "," + (b + "," + v);
    assert p + "," + b + "," + v == p + "," + (b + "," + v);
    SplitJoin([p, b, v]);
    DecimalRoundTrip(pos);
    DecimalRoundTrip(bit);
    DecimalRoundTrip(val);
    assert Join([b]) == b;
    assert Join([p, b]) == p + "," + b;
    SplitJoin([p, b]);
  }

  lemma DecimalNoComma(v: int)
    ensures IsToken(Decimal(v))
  {
    var r := Render(if v < 0 then -v else v, 10);
    assert forall i :: 0 <= i < |r| ==> r[i] != ',' by {
      forall i | 0 <= i < |r| ensures r[i] != ',' {
        assert IsDigitIn(r[i], 10);
      }
    }
    if v < 0 {
      assert Decimal(v) == "-" + r;
      assert forall i :: 0 <= i < |Decimal(v)| ==> Decimal(v)[i] != ',' by {
        forall i | 0 <= i < |Decimal(v)| ensures Decimal(v)[i] != ',' {
          if i > 0 {
            assert Decimal(v)[i] == r[i - 1];
          }
        }
      }
    }
  }

  /** The inputs the code as written gets wrong: one or two fields, which the intended parse reads in full. */
  lemma ParseMappingAsWrittenReadsUnset()
    ensures ParseMappingAsWritten(Tokens("5")).None?
    ensures ParseMappingAsWritten(Tokens("5,1")).None?
    ensures ParseMapping(Tokens("5,1")) == Mapping(5, true, 0)
  {
    ShortTokens();
    DigitAtoi(5);
    DigitAtoi(1);
  }

  lemma ShortTokens()
    ensures Tokens("5") == ["5"] && Tokens("5,1") == ["5", "1"]
  {
    assert "5"[1..] == [] && [] + ['5'] == "5";
    assert Toks("5", []) == Toks([], "5");
    assert "5,1"[1..] == ",1" && ",1"[1..] == "1" && "1"[1..] == [] && [] + ['1'] == "1";
    assert Toks("5,1", []) == Toks(",1", "5");
    assert Toks(",1", "5") == ["5"] + Toks("1", []);
    assert Toks("1", []) == Toks([], "1");
  }

  /** A single decimal digit reads as its value. */
  lemma DigitAtoi(d: nat)
    requires d < 10
    ensures Atoi([DigitChar(d, 10)]) == d
  {
    DecimalRoundTrip(d);
  }

  // ---------------------------------------------------------------------
  // The driver configuration and `hid_driver_load`.
  // ---------------------------------------------------------------------

  /** The `SC_BTN_*` code of a button; `NoButton` is the code 0 of a zeroed entry. */
  datatype PadButton = NoButton | Up | Down | Left | Right | A | B | C | X | Y | Z | Start | Mode

  /** One button of `hid_joy_config_t`. */
  datatype ButtonMap = ButtonMap(btn: PadButton, isAvail: bool, pos: int, isBit: bool, val: int)

  /** `hid_joy_config_t`: the gamepad's IDs and the twelve button entries. */
  datatype JoyConfig = JoyConfig(vid: nat, pid: nat, buttons: seq<ButtonMap>)

  const BUTTONS: nat := 12
  const BUTTON_KEYS: seq<string> := ["up", "down", "left", "right", "a", "b", "c", "x", "y", "z", "start", "mode"]
  const BUTTON_CODES: seq<PadButton> := [Up, Down, Left, Right, A, B, C, X, Y, Z, Start, Mode]

  const ZeroButton: ButtonMap := ButtonMap(NoButton, false, 0, false, 0)

  /** `hid_joy_config_t cfg = {0}`. */
  const ZeroConfig: JoyConfig := JoyConfig(0, 0, seq(BUTTONS, _ => ZeroButton))

  /** A driver file: whether it opens, whether it validates, and its values. */
  datatype IniFile = IniFile(opens: bool, valid: bool, values: map<(string, string), string>)

  /** `fullname[64]`: "/drivers/" and the file name, cut to fit. */
  function DriverPath(filename: string): (r: string)
    ensures r <= "/drivers/" + filename && |r| < 64
  {
    CharArrayPrefix("/drivers/" + filename, 64);
    CharArray("/drivers/" + filename, 64)
  }

  /** A hexadecimal ID, or 0 when the key is missing. */
  function HexOrZero(values: map<(string, string), string>, key: string): nat
  {
    if ("info", key) in values then Unsigned16(values[("info", key)]) else 0
  }

  /** Button `i`'s entry: its code, and its mapping when its key is present. */
  function ButtonFor(values: map<(string, string), string>, i: nat): ButtonMap
    requires i < BUTTONS
  {
    var key := ("buttons", BUTTON_KEYS[i]);
    if key in values then
      var m := ParseMapping(Tokens(values[key]));
      ButtonMap(BUTTON_CODES[i], true, m.pos, m.isBit, m.val)
    else ButtonMap(BUTTON_CODES[i], false, 0, false, 0)
  }

  /** Whether the driver file at `path` opens and validates. */
  predicate Loads(volume: map<string, IniFile>, path: string)
  {
    path in volume && volume[path].opens && volume[path].valid
  }

  /** The configuration loaded from a driver file. */
  function Driver(volume: map<string, IniFile>, filename: string): (cfg: JoyConfig)
    ensures |cfg.buttons| == BUTTONS
  {
    var path := DriverPath(filename);
    if !Loads(volume, path) then ZeroConfig
    else
      var values := volume[path].values;
      JoyConfig(HexOrZero(values, "vid"), HexOrZero(values, "pid"), seq(BUTTONS, i requires 0 <= i < BUTTONS => ButtonFor(values, i)))
  }

  /**
   * What a loaded configuration holds: all zero when the file does not open
   * or validate; otherwise the IDs in hexadecimal (0 when missing), and for
   * each button its fixed code, whether its key is present, and the parsed
   * mapping (all zero when absent).
   */
  lemma DriverFields(volume: map<string, IniFile>, filename: string, i: nat)
    requires i < BUTTONS
    ensures var cfg := Driver(volume, filename);
            var path := DriverPath(filename);
            (!Loads(volume, path) ==> cfg.vid == 0 && cfg.pid == 0 && cfg.buttons[i] == ZeroButton)
            && (Loads(volume, path) ==>
                  var values := volume[path].values;
                  var key := ("buttons", BUTTON_KEYS[i]);
                  var b := cfg.buttons[i];
                  (("info", "vid") in values ==> cfg.vid == Unsigned16(values[("info", "vid")]))
                  && (("info", "vid") !in values ==> cfg.vid == 0)
                  && (("info", "pid") in values ==> cfg.pid == Unsigned16(values[("info", "pid")]))
                  && (("info", "pid") !in values ==> cfg.pid == 0)
                  && b.btn == BUTTON_CODES[i] && b.btn != NoButton
                  && (b.isAvail <==> key in values)
                  && (b.isAvail ==> Mapping(b.pos, b.isBit, b.val) == ParseMapping(Tokens(values[key])))
                  && (!b.isAvail ==> b.pos == 0 && !b.isBit && b.val == 0))
  {
  }

  /** One pass of the button loop: the fixed code, then the mapping when the key is present. */
  method LoadButton(values: map<(string, string), string>, i: nat) returns (b: ButtonMap)
    requires i < BUTTONS
    ensures b == ButtonFor(values, i)
  {
    b := ZeroButton.(btn := BUTTON_CODES[i], isAvail := false);
    var key := ("buttons", BUTTON_KEYS[i]);
    if key in values {
      b := b.(isAvail := true);
      var strings := Split(values[key]);
      var m := ParseMapping(strings);
      b := b.(pos := m.pos, isBit := m.isBit, val := m.val);
    }
  }

  /** `hid_driver_load`: opens and validates the file, reads the IDs, then fills the twelve entries in place. */
  method Load(volume: map<string, IniFile>, filename: string) returns (cfg: JoyConfig)
    ensures cfg == Driver(volume, filename)
  {
    cfg := ZeroConfig;
    var path := DriverPath(filename);
    if path !in volume || !volume[path].opens {
      return;
    }
    var ini := volume[path];
    if !ini.valid {
      return;
    }
    var values := ini.values;
    cfg := cfg.(vid := if ("info", "vid") in values then Unsigned16(values[("info", "vid")]) else 0);
    cfg := cfg.(pid := if ("info", "pid") in values then Unsigned16(values[("info", "pid")]) else 0);
    ghost var spec := seq(BUTTONS, i requires 0 <= i < BUTTONS => ButtonFor(values, i));
    for i := 0 to BUTTONS
      invariant cfg.vid == HexOrZero(values, "vid") && cfg.pid == HexOrZero(values, "pid")
      invariant |cfg.buttons| == BUTTONS
      invariant forall j :: 0 <= j < i ==> cfg.buttons[j] == spec[j]
    {
      var b := LoadButton(values, i);
      cfg := cfg.(buttons := cfg.buttons[i := b]);
    }
    assert cfg.buttons == spec;
  }

  // ---------------------------------------------------------------------
  // `hid_drivers_load`: every ".ini" file of the drivers folder.
  // ---------------------------------------------------------------------

  const DRIVER_EXT: string := ".ini"

  /** The 32-byte name buffer ends in ".ini" in any case; shorter names are never listed. */
  predicate IsIniName(name: string)
  {
    |name| >= 4 && ToLower(LastFour(name)) == DRIVER_EXT
  }

  /** `strlwr` on the last four characters changes the buffer the name is then loaded from. */
  function LowerExt(name: string): (r: string)
    requires |name| >= 4
    ensures |r| == |name| && r[..|name| - 4] == name[..|name| - 4]
  {
    name[..|name| - 4] + ToLower(name[|name| - 4..])
  }

  /** The file names loaded, in directory order. */
  function IniNames(names: seq<string>): (r: seq<string>)
    ensures |r| <= |names|
  {
    if names == [] then []
    else
      var n := CharArray(names[|names| - 1], 32);
      IniNames(names[..|names| - 1]) + (if IsIniName(n) then [LowerExt(n)] else [])
  }

  /** Every name loaded ends in ".ini" exactly, and comes from a listed name. */
  lemma {:induction false} IniNamesShape(names: seq<string>)
    ensures forall k :: 0 <= k < |IniNames(names)| ==>
      var n := IniNames(names)[k];
      |n| >= 4 && n[|n| - 4..] == DRIVER_EXT
      && exists j :: 0 <= j < |names| && IsIniName(CharArray(names[j], 32)) && n == LowerExt(CharArray(names[j], 32))
  {
    if names != [] {
      var init := names[..|names| - 1];
      IniNamesShape(init);
      var m := CharArray(names[|names| - 1], 32);
      if IsIniName(m) {
        var l := LowerExt(m);
        assert l[|l| - 4..] == ToLower(m[|m| - 4..]);
        assert LastFour(m) == m[|m| - 4..];
      }
      forall k | 0 <= k < |IniNames(init)|
        ensures IniNames(names)[k] == IniNames(init)[k]
      {
      }
      forall k | 0 <= k < |IniNames(init)|
        ensures exists j :: 0 <= j < |names| && IsIniName(CharArray(names[j], 32)) && IniNames(names)[k] == LowerExt(CharArray(names[j], 32))
      {
        var j :| 0 <= j < |init| && IsIniName(CharArray(init[j], 32)) && IniNames(init)[k] == LowerExt(CharArray(init[j], 32));
        assert names[j] == init[j];
      }
    }
  }

  /** Every listed ".ini" name is loaded. */
  lemma {:induction false} IniNamesComplete(names: seq<string>, j: nat)
    requires j < |names| && IsIniName(CharArray(names[j], 32))
    ensures LowerExt(CharArray(names[j], 32)) in IniNames(names)
  {
    if j < |names| - 1 {
      IniNamesComplete(names[..|names| - 1], j);
      assert names[..|names| - 1][j] == names[j];
    }
  }

  function Drivers(volume: map<string, IniFile>, names: seq<string>): (r: seq<JoyConfig>)
    ensures |r| == |names|
  {
    if names == [] then [] else Drivers(volume, names[..|names| - 1]) + [Driver(volume, names[|names| - 1])]
  }

  lemma IniNamesSnoc(names: seq<string>, n: nat)
    requires n < |names|
    ensures IniNames(names[..n + 1]) == IniNames(names[..n]) + (if IsIniName(CharArray(names[n], 32)) then [LowerExt(CharArray(names[n], 32))] else [])
  {
    assert names[..n + 1][..n] == names[..n];
  }

  lemma DriversSnoc(volume: map<string, IniFile>, names: seq<string>, n: string)
    ensures Drivers(volume, names + [n]) == Drivers(volume, names) + [Driver(volume, n)]
  {
    assert (names + [n])[..|names|] == names;
  }

  /**
   * `hid_drivers_load`: with a card whose drivers folder opens, one
   * configuration per ".ini" file in directory order; otherwise none.
   */
  method LoadAll(hasSd: bool, dirOpens: bool, names: seq<string>, volume: map<string, IniFile>) returns (drivers: seq<JoyConfig>)
    ensures drivers == if hasSd && dirOpens then Drivers(volume, IniNames(names)) else []
  {
    drivers := [];
    if !hasSd || !dirOpens {
      return;
    }
    for k := 0 to |names|
      invariant drivers == Drivers(volume, IniNames(names[..k]))
    {
      IniNamesSnoc(names, k);
      var filename := CharArray(names[k], 32);
      if IsIniName(filename) {
        var cfg := Load(volume, LowerExt(filename));
        DriversSnoc(volume, IniNames(names[..k]), LowerExt(filename));
        drivers := drivers + [cfg];
      } else {
        assert IniNames(names[..k + 1]) == IniNames(names[..k]);
      }
    }
    assert names[..|names|] == names;
  }
}
