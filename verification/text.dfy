// The handful of Arduino `String` / C-string operations the firmware relies
// on: `trim`, `toLowerCase` / `strlwr`, `operator<` (strcmp order) and
// `toCharArray` truncation. Strings are sequences of 8-bit characters; the
// C locale is assumed, so case folding only touches 'A'..'Z'.

module Text {

  /** C `isspace` in the C locale. */
  predicate IsSpace(c: char)
  {
    c == ' ' || c == '\t' || c == '\n' || c == '\U{B}' || c == '\U{C}' || c == '\r'
  }

  /** C `tolower` in the C locale. */
  function LowerChar(c: char): (r: char)
    ensures 'A' <= c <= 'Z' ==> 'a' <= r <= 'z' && r as int - c as int == 32
    ensures !('A' <= c <= 'Z') ==> r == c
  {
    if 'A' <= c <= 'Z' then (c as int + 32) as char else c
  }

  /** `String::toLowerCase` and `strlwr`: every character lower-cased in place. */
  function ToLower(s: string): (r: string)
    ensures |r| == |s|
  {
    if s == [] then [] else [LowerChar(s[0])] + ToLower(s[1..])
  }

  /** Each character is lower-cased where it stands. */
  lemma {:induction false} ToLowerAt(s: string)
    ensures forall i :: 0 <= i < |s| ==> ToLower(s)[i] == LowerChar(s[i])
  {
    if s != [] {
      ToLowerAt(s[1..]);
    }
  }

  lemma ToLowerIdempotent(s: string)
    ensures ToLower(ToLower(s)) == ToLower(s)
  {
    var once := ToLower(s);
    var twice := ToLower(once);
    ToLowerAt(s);
    ToLowerAt(once);
    assert forall i :: 0 <= i < |s| ==> twice[i] == once[i];
  }

  lemma ToLowerAppend(a: string, b: string)
    ensures ToLower(a + b) == ToLower(a) + ToLower(b)
  {
    ToLowerAt(a + b);
    ToLowerAt(a);
    ToLowerAt(b);
    var l := ToLower(a + b);
    var r := ToLower(a) + ToLower(b);
    assert forall i :: 0 <= i < |l| ==> l[i] == r[i];
  }

  /** Number of leading white-space characters. */
  function LeadingSpaces(s: string): (n: nat)
    ensures n <= |s|
  {
    if |s| > 0 && IsSpace(s[0]) then 1 + LeadingSpaces(s[1..]) else 0
  }

  /** Number of trailing white-space characters. */
  function TrailingSpaces(s: string): (n: nat)
    ensures n <= |s|
  {
    if |s| > 0 && IsSpace(s[|s| - 1]) then 1 + TrailingSpaces(s[..|s| - 1]) else 0
  }

  lemma {:induction false} LeadingSpacesRun(s: string)
    ensures forall i :: 0 <= i < LeadingSpaces(s) ==> IsSpace(s[i])
    ensures LeadingSpaces(s) < |s| ==> !IsSpace(s[LeadingSpaces(s)])
  {
    if |s| > 0 && IsSpace(s[0]) {
      LeadingSpacesRun(s[1..]);
    }
  }

  lemma {:induction false} TrailingSpacesRun(s: string)
    ensures forall i :: |s| - TrailingSpaces(s) <= i < |s| ==> IsSpace(s[i])
    ensures TrailingSpaces(s) < |s| ==> !IsSpace(s[|s| - TrailingSpaces(s) - 1])
  {
    if |s| > 0 && IsSpace(s[|s| - 1]) {
      TrailingSpacesRun(s[..|s| - 1]);
    }
  }

  /** `String::trim`: drops the white space at both ends. */
  function Trim(s: string): (r: string)
    ensures |r| <= |s|
  {
    var lead := LeadingSpaces(s);
    var rest := s[lead..];
    rest[..|rest| - TrailingSpaces(rest)]
  }

  /**
   * The trimmed string is the infix of `s` that starts at its first
   * non-space character and ends at its last one; it is empty exactly when
   * `s` is all white space.
   */
  lemma TrimShape(s: string)
    ensures LeadingSpaces(s) + |Trim(s)| <= |s|
    ensures Trim(s) == s[LeadingSpaces(s)..LeadingSpaces(s) + |Trim(s)|]
    ensures |Trim(s)| > 0 ==> !IsSpace(Trim(s)[0]) && !IsSpace(Trim(s)[|Trim(s)| - 1])
    ensures Trim(s) == [] <==> forall i :: 0 <= i < |s| ==> IsSpace(s[i])
  {
    var lead := LeadingSpaces(s);
    var rest := s[lead..];
    var trail := TrailingSpaces(rest);
    LeadingSpacesRun(s);
    TrailingSpacesRun(rest);
    var r := Trim(s);
    if r == [] {
      assert lead == |s|;
    } else {
      assert r[0] == s[lead];
      assert r[|r| - 1] == rest[|rest| - trail - 1];
    }
  }

  lemma NoEdgeSpacesTrimmed(s: string)
    requires |s| > 0 ==> !IsSpace(s[0]) && !IsSpace(s[|s| - 1])
    ensures Trim(s) == s
  {
    assert LeadingSpaces(s) == 0;
    assert s[0..] == s;
  }

  /** Trimming twice is trimming once. */
  lemma TrimIdempotent(s: string)
    ensures Trim(Trim(s)) == Trim(s)
  {
    TrimShape(s);
    NoEdgeSpacesTrimmed(Trim(s));
  }

  /**
   * `String::operator<` (via `compareTo`, i.e. `strcmp`): lexicographic on
   * character codes, a proper prefix sorting first.
   */
  predicate StrLess(a: string, b: string)
    decreases |a|
  {
    |b| > 0 && (|a| == 0 || a[0] < b[0] || (a[0] == b[0] && StrLess(a[1..], b[1..])))
  }

  lemma {:induction false} StrLessIrreflexive(a: string)
    ensures !StrLess(a, a)
    decreases |a|
  {
    if |a| > 0 { StrLessIrreflexive(a[1..]); }
  }

  lemma {:induction false} StrLessTransitive(a: string, b: string, c: string)
    requires StrLess(a, b) && StrLess(b, c)
    ensures StrLess(a, c)
    decreases |a|
  {
    if |a| > 0 && a[0] == b[0] && b[0] == c[0] {
      StrLessTransitive(a[1..], b[1..], c[1..]);
    }
  }

  lemma {:induction false} StrLessTotal(a: string, b: string)
    requires a != b
    ensures StrLess(a, b) || StrLess(b, a)
    decreases |a|
  {
    if |a| > 0 && |b| > 0 && a[0] == b[0] {
      assert a == [a[0]] + a[1..] && b == [b[0]] + b[1..];
      StrLessTotal(a[1..], b[1..]);
    }
  }

  /**
   * The extension part `filename + (len - 4)` that the list scans lower-case
   * in place: the last four characters. For a name shorter than four the C
   * pointer would start before the buffer; the whole name is taken instead.
   */
  function LastFour(name: string): (r: string)
    ensures |r| <= 4 && |r| <= |name| && r == name[|name| - |r|..]
    ensures |name| >= 4 ==> |r| == 4
  {
    if |name| >= 4 then name[|name| - 4..] else name
  }

  /**
   * `String::toCharArray(buf, size)` and `getBytes`: at most `size - 1`
   * characters are copied so that the terminating NUL fits.
   */
  function CharArray(s: string, size: nat): (r: string)
    ensures size > 0 ==> |r| == if |s| < size then |s| else size - 1
    ensures size == 0 ==> r == []
  {
    if size == 0 then [] else if |s| < size then s else s[..size - 1]
  }

  /** What is copied is the start of the string. */
  lemma CharArrayPrefix(s: string, size: nat)
    ensures CharArray(s, size) <= s
  {
  }

  /** A C string read from a fixed-size field: everything before the first NUL. */
  function CString(bytes: seq<bv8>): (r: string)
    ensures |r| <= |bytes|
    ensures forall i :: 0 <= i < |r| ==> r[i] as int == bytes[i] as int && r[i] != '\0'
    ensures |r| < |bytes| ==> bytes[|r|] == 0
  {
    if bytes == [] || bytes[0] == 0 then [] else [bytes[0] as char] + CString(bytes[1..])
  }
}
