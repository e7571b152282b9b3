/**
  The Python string built-ins the screens rely on: `str.strip()` with no
  argument, `str.isdigit()` followed by `int()`, `str.isprintable()` and the
  `'{:02x}'` format. Characters are Unicode code points.
*/
module PyText {
  import opened Wrappers

  // ----- whitespace and strip -----

  /** The characters `str.strip()` removes: Python's Unicode whitespace. */
  predicate IsSpace(c: char) {
    c == ' ' || ('\t' <= c <= '\r') || ('\U{1C}' <= c <= '\U{1F}') || c == '\U{85}' || c == '\U{A0}' ||
    c == '\U{1680}' || ('\U{2000}' <= c <= '\U{200A}') || c == '\U{2028}' || c == '\U{2029}' ||
    c == '\U{202F}' || c == '\U{205F}' || c == '\U{3000}'
  }

  predicate AllSpace(s: string) {
    forall k :: 0 <= k < |s| ==> IsSpace(s[k])
  }

  /** Where the text resumes after the whitespace starting at `i`: the first non-whitespace index, or the end. */
  function SkipSpace(s: string, i: nat): (j: nat)
    requires i <= |s|
    ensures i <= j <= |s| && (j == |s| || !IsSpace(s[j]))
    ensures forall k :: i <= k < j ==> IsSpace(s[k])
    decreases |s| - i
  {
    if i < |s| && IsSpace(s[i]) then SkipSpace(s, i + 1) else i
  }

  /** Where the text ends before the whitespace that ends at `j`, going back no further than `i`. */
  function SkipSpaceBack(s: string, i: nat, j: nat): (e: nat)
    requires i <= j <= |s|
    ensures i <= e <= j && (e == i || !IsSpace(s[e - 1]))
    ensures forall k :: e <= k < j ==> IsSpace(s[k])
  {
    if i < j && IsSpace(s[j - 1]) then SkipSpaceBack(s, i, j - 1) else j
  }

  /** str.strip(): the text between its leading and its trailing whitespace. */
  function Strip(s: string): string {
    var i := SkipSpace(s, 0);
    s[i..SkipSpaceBack(s, i, |s|)]
  }

  /**
    strip removes exactly the whitespace at both ends: the result is the
    slice of `s` between two runs of whitespace, it neither begins nor ends
    with whitespace, and it is empty exactly when `s` is blank.
  */
  lemma StripSpec(s: string)
    ensures exists i, j :: 0 <= i <= j <= |s| && Strip(s) == s[i..j] && AllSpace(s[..i]) && AllSpace(s[j..])
    ensures Strip(s) == [] || (!IsSpace(Strip(s)[0]) && !IsSpace(Strip(s)[|Strip(s)| - 1]))
    ensures Strip(s) == [] <==> AllSpace(s)
  {
    var i := SkipSpace(s, 0);
    var j := SkipSpaceBack(s, i, |s|);
    var t := Strip(s);
    assert t == s[i..j];
    assert AllSpace(s[..i]) && AllSpace(s[j..]);
    if i == j {
      assert AllSpace(s) by {
        forall k | 0 <= k < |s|
          ensures IsSpace(s[k])
        {
        }
      }
    } else {
      assert t[0] == s[i] && t[|t| - 1] == s[j - 1];
      assert !AllSpace(s) by { assert !IsSpace(s[i]); }
    }
  }

  /** Text with no whitespace at either end is left as it is. */
  lemma StripTrimmed(s: string)
    requires s == [] || (!IsSpace(s[0]) && !IsSpace(s[|s| - 1]))
    ensures Strip(s) == s
  {
  }

  // ----- digits -----

  predicate IsDigit(c: char) {
    '0' <= c <= '9'
  }

  /** str.isdigit() for ASCII digits: non-empty and nothing but digits. */
  predicate IsDigits(s: string) {
    |s| > 0 && forall k :: 0 <= k < |s| ==> IsDigit(s[k])
  }

  /** The value of a run of decimal digits, most significant first. */
  function DecimalValue(s: string): nat
    requires forall k :: 0 <= k < |s| ==> IsDigit(s[k])
  {
    if s == [] then 0
    else
      assert IsDigit(s[|s| - 1]);
      10 * DecimalValue(s[..|s| - 1]) + (s[|s| - 1] as int - '0' as int)
  }

  /**
    int() on the digit-only buffer the settings screen builds: the value of
    a non-empty run of ASCII digits, None (ValueError) for any other text
    that buffer can hold. Python's int() also accepts a sign, surrounding
    whitespace and underscores; the buffer never holds those, so they are
    not modelled.
  */
  function ParseInt(s: string): (r: Option<nat>)
    ensures r.Some? <==> IsDigits(s)
  {
    if IsDigits(s) then Some(DecimalValue(s)) else None
  }

  function DigitChar(d: nat): (c: char)
    requires d < 10
    ensures IsDigit(c)
  {
    ('0' as int + d) as char
  }

  /** The decimal spelling of a number, without leading zeros. */
  function Decimal(v: nat): (s: string)
    ensures IsDigits(s)
  {
    if v < 10 then [DigitChar(v)] else Decimal(v / 10) + [DigitChar(v % 10)]
  }

  /** int() reads back exactly the number str() wrote. */
  lemma {:induction false} DecimalRoundTrip(v: nat)
    ensures ParseInt(Decimal(v)) == Some(v)
  {
    var s := Decimal(v);
    if v < 10 {
      assert s[..0] == [];
      assert DecimalValue(s) == 10 * DecimalValue([]) + v;
    } else {
      DecimalRoundTrip(v / 10);
      assert s[..|s| - 1] == Decimal(v / 10);
      assert DecimalValue(s) == 10 * (v / 10) + v % 10;
    }
  }

  // ----- printable characters -----

  /**
    str.isprintable() on one character, for the Latin-1 range: control
    characters, the no-break space and the soft hyphen are not printable.
  */
  predicate IsPrintableChar(c: char) {
    !(c < ' ' || ('\U{7F}' <= c <= '\U{A0}') || c == '\U{AD}')
  }

  /** str.isprintable(): true of the empty string. */
  predicate IsPrintable(s: string) {
    forall k :: 0 <= k < |s| ==> IsPrintableChar(s[k])
  }

  // ----- splitting -----

  /** The position of the first occurrence of `c` in `s`. */
  function FirstIndex(s: string, c: char): (k: nat)
    requires c in s
    ensures k < |s| && s[k] == c && c !in s[..k]
  {
    if s[0] == c then 0
    else
      var k := FirstIndex(s[1..], c);
      assert s[1..][..k] == s[1..k + 1];
      k + 1
  }

  /** s.split(c, 1) when `c` occurs: the text before the first `c` and the text after it. */
  function SplitFirst(s: string, c: char): (parts: (string, string))
    requires c in s
    ensures parts.0 + [c] + parts.1 == s && c !in parts.0
  {
    var k := FirstIndex(s, c);
    assert s == s[..k] + [c] + s[k + 1..];
    (s[..k], s[k + 1..])
  }

  /** Text split at its first `c`: before and after are recovered exactly. */
  lemma SplitFirstUnique(a: string, b: string, c: char)
    requires c !in a
    ensures c in a + [c] + b
    ensures SplitFirst(a + [c] + b, c) == (a, b)
  {
    var s := a + [c] + b;
    var k := FirstIndex(s, c);
    forall j | 0 <= j < k ensures s[j] != c {
      assert s[..k][j] == s[j];
    }
    forall j | 0 <= j < |a| ensures s[j] != c {
      assert s[j] == a[j];
    }
    assert s[|a|] == c;
    assert k == |a|;
    assert s[..k] == a;
    assert s[k + 1..] == b;
  }

  // ----- hexadecimal -----

  function HexDigit(d: nat): char
    requires d < 16
  {
    if d < 10 then ('0' as int + d) as char else ('a' as int + d - 10) as char
  }

  predicate IsHexDigit(c: char) {
    '0' <= c <= '9' || 'a' <= c <= 'f'
  }

  function HexDigitValue(c: char): nat
    requires IsHexDigit(c)
  {
    if c <= '9' then c as int - '0' as int else c as int - 'a' as int + 10
  }

  /** The lowercase hexadecimal spelling of a number, without leading zeros. */
  function Hex(v: nat): (s: string)
    ensures |s| >= 1
    ensures forall k :: 0 <= k < |s| ==> IsHexDigit(s[k])
  {
    if v < 16 then [HexDigit(v)] else Hex(v / 16) + [HexDigit(v % 16)]
  }

  /** The value of a string of lowercase hexadecimal digits. */
  function HexValue(s: string): nat
    requires forall k :: 0 <= k < |s| ==> IsHexDigit(s[k])
  {
    if s == [] then 0 else 16 * HexValue(s[..|s| - 1]) + HexDigitValue(s[|s| - 1])
  }

  /** '{:02x}'.format(v): zero-padded to two characters; a negative value keeps its sign. */
  function Format02x(v: int): (s: string)
    ensures |s| >= 2
  {
    if v < 0 then "-" + Hex(-v)
    else if v < 16 then "0" + Hex(v)
    else Hex(v)
  }

  /**
    For a byte the format gives exactly two lowercase hex digits, and
    reading them back gives the byte.
  */
  lemma Format02xByte(v: int)
    requires 0 <= v <= 255
    ensures |Format02x(v)| == 2
    ensures forall k :: 0 <= k < 2 ==> IsHexDigit(Format02x(v)[k])
    ensures HexValue(Format02x(v)) == v
  {
    var s := Format02x(v);
    if v < 16 {
      assert s == ['0', HexDigit(v)];
      assert s[..1] == ['0'];
      assert HexValue(s[..1]) == 16 * HexValue([]) + 0;
    } else {
      assert Hex(v / 16) == [HexDigit(v / 16)];
      assert s == [HexDigit(v / 16), HexDigit(v % 16)];
      assert s[..1] == [HexDigit(v / 16)];
      assert HexValue(s[..1]) == 16 * HexValue([]) + v / 16;
    }
  }
}
