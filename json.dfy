/**
 * The JSON encoding the live stream uses (`ArrayEncoder().encode` in txopenbci/web.py): Python's
 * `json` encoder with its defaults, for the values the stream sends: integers, strings and
 * lists of them (decoded sample arrays are encoded as lists). Every encoding is printable
 * ASCII, so it never contains a newline.
 */
module Json {

  datatype Json = JInt(i: int) | JStr(s: string) | JList(items: seq<Json>)

  predicate Printable(c: char)
  {
    ' ' <= c <= '~'
  }

  predicate AllPrintable(s: string)
  {
    forall i :: 0 <= i < |s| ==> Printable(s[i])
  }

  function Digit(d: nat): (c: char)
    requires d < 10
    ensures '0' <= c <= '9' && c as int - '0' as int == d
  {
    ('0' as int + d) as char
  }

  /** `repr` of a natural number: decimal digits, most significant first, no leading zeros. */
  function NatToDecimal(n: nat): (s: string)
    decreases n
    ensures 1 <= |s| && (|s| > 1 ==> s[0] != '0')
    ensures forall i :: 0 <= i < |s| ==> '0' <= s[i] <= '9'
  {
    if n < 10 then [Digit(n)] else NatToDecimal(n / 10) + [Digit(n % 10)]
  }

  /** `repr` of an integer: a minus sign for negatives, then the digits of the magnitude. */
  function IntToDecimal(i: int): (s: string)
    ensures AllPrintable(s)
    ensures 1 <= |s| && (s[0] == '-' <==> i < 0)
  {
    if i < 0 then "-" + NatToDecimal(-i) else NatToDecimal(i)
  }

  /** The value of a string of decimal digits. */
  function DecimalValue(s: string): nat
    requires forall i :: 0 <= i < |s| ==> '0' <= s[i] <= '9'
  {
    if s == [] then 0 else 10 * DecimalValue(s[..|s| - 1]) + (s[|s| - 1] as int - '0' as int)
  }

  /** The digits read back give the number they encode. */
  lemma {:induction false} NatToDecimalValue(n: nat)
    ensures DecimalValue(NatToDecimal(n)) == n
    decreases n
  {
    if n >= 10 {
      NatToDecimalValue(n / 10);
      var init := NatToDecimal(n / 10);
      var s := NatToDecimal(n);
      assert s == init + [Digit(n % 10)];
      assert s[..|s| - 1] == init;
      assert s[|s| - 1] as int - '0' as int == n % 10;
      assert DecimalValue(s) == 10 * DecimalValue(init) + n % 10;
    }
  }

  function HexDigit(d: nat): (c: char)
    requires d < 16
    ensures Printable(c)
  {
    "0123456789abcdef"[d]
  }

  /** `'\\u{0:04x}'.format(n)` */
  function UnicodeEscape(n: nat): (s: string)
    requires n < 0x1_0000
    ensures |s| == 6 && AllPrintable(s)
  {
    ['\\', 'u', HexDigit(n / 0x1000), HexDigit((n / 0x100) % 16), HexDigit((n / 16) % 16), HexDigit(n % 16)]
  }

  /**
   * One character as `encode_basestring_ascii` writes it: printable ASCII other than `\` and
   * `"` as is, short escapes for `\`, `"`, backspace, form feed, newline, carriage return and
   * tab, `\uXXXX` for any other character of the basic plane and a surrogate pair beyond it.
   */
  function EscapeChar(c: char): (s: string)
    ensures AllPrintable(s)
  {
    if c == '\\' then "\\\\"
    else if c == '"' then "\\\""
    else if c == '\U{8}' then "\\b"
    else if c == '\U{C}' then "\\f"
    else if c == '\n' then "\\n"
    else if c == '\r' then "\\r"
    else if c == '\t' then "\\t"
    else if Printable(c) then [c]
    else if (c as int) < 0x1_0000 then UnicodeEscape(c as int)
    else
      var n := c as int - 0x1_0000;
      UnicodeEscape(0xD800 + n / 0x400) + UnicodeEscape(0xDC00 + n % 0x400)
  }

  function EscapeString(s: string): (r: string)
    ensures AllPrintable(r)
  {
    if s == [] then "" else EscapeChar(s[0]) + EscapeString(s[1..])
  }

  /** Printable ASCII other than the quote and the backslash passes through unescaped. */
  lemma {:induction false} EscapePlain(s: string)
    requires forall i :: 0 <= i < |s| ==> Printable(s[i]) && s[i] != '\\' && s[i] != '"'
    ensures EscapeString(s) == s
  {
    if s != [] {
      EscapePlain(s[1..]);
      assert [s[0]] + s[1..] == s;
    }
  }

  /** `", ".join(parts)` */
  function Join(parts: seq<string>): (r: string)
    ensures (forall i :: 0 <= i < |parts| ==> AllPrintable(parts[i])) ==> AllPrintable(r)
  {
    if parts == [] then ""
    else if |parts| == 1 then parts[0]
    else parts[0] + ", " + Join(parts[1..])
  }

  /**
   * `json.dumps(value)`. Its output is always printable ASCII, so it has no line break and
   * fits on one SSE `data:` line.
   */
  function Encode(j: Json): (r: string)
    decreases j
    ensures AllPrintable(r)
    ensures '\n' !in r
  {
    match j
    case JInt(i) => IntToDecimal(i)
    case JStr(s) => "\"" + EscapeString(s) + "\""
    case JList(items) =>
      var parts := seq(|items|, k requires 0 <= k < |items| => Encode(items[k]));
      "[" + Join(parts) + "]"
  }

  function IntList(xs: seq<int>): (j: Json)
    ensures j.JList? && |j.items| == |xs|
    ensures forall k :: 0 <= k < |xs| ==> j.items[k] == JInt(xs[k])
  {
    JList(seq(|xs|, k requires 0 <= k < |xs| => JInt(xs[k])))
  }
}
