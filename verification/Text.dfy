/** Text as the rest of the model uses it: UTF-8 bytes, decimal numerals, trimming and JSON quoting. */
module Text {

  datatype Option<+T> = None | Some(value: T)

  newtype byte = b: int | 0 <= b < 256

  type Bytes = seq<byte>

  // ---------------------------------------------------------------- UTF-8 (RFC 3629)

  /** A Dafny `char` is a Unicode scalar value, so a `string` is a well-formed JavaScript string. */
  function EncodeChar(c: char): (bs: Bytes)
    ensures 1 <= |bs| <= 4
  {
    var n := c as int;
    if n < 0x80 then
      [n as byte]
    else if n < 0x800 then
      [(0xC0 + n / 64) as byte, (0x80 + n % 64) as byte]
    else if n < 0x1_0000 then
      [(0xE0 + n / 4096) as byte, (0x80 + n / 64 % 64) as byte, (0x80 + n % 64) as byte]
    else
      [(0xF0 + n / 262144) as byte, (0x80 + n / 4096 % 64) as byte,
       (0x80 + n / 64 % 64) as byte, (0x80 + n % 64) as byte]
  }

  function Utf8(s: string): Bytes {
    if s == "" then [] else EncodeChar(s[0]) + Utf8(s[1..])
  }

  /** How many bytes the character that starts with `lead` takes. */
  function CharWidth(lead: byte): (w: nat)
    ensures 1 <= w <= 4
  {
    if lead < 0x80 then 1 else if lead < 0xE0 then 2 else if lead < 0xF0 then 3 else 4
  }

  predicate IsScalar(n: int) {
    0 <= n < 0xD800 || 0xE000 <= n < 0x11_0000
  }

  /** The scalar value written by the bytes of one character. */
  function CharValue(bs: Bytes): int
    requires 1 <= |bs| <= 4
  {
    if |bs| == 1 then bs[0] as int
    else if |bs| == 2 then (bs[0] as int - 0xC0) * 64 + (bs[1] as int - 0x80)
    else if |bs| == 3 then
      (bs[0] as int - 0xE0) * 4096 + (bs[1] as int - 0x80) * 64 + (bs[2] as int - 0x80)
    else
      (bs[0] as int - 0xF0) * 262144 + (bs[1] as int - 0x80) * 4096
      + (bs[2] as int - 0x80) * 64 + (bs[3] as int - 0x80)
  }

  /** Strict decoding: `None` as soon as the bytes are not what `Utf8` writes. */
  function FromUtf8(bs: Bytes): Option<string> {
    if bs == [] then Some("")
    else
      var w := CharWidth(bs[0]);
      if |bs| < w then None
      else
        var n := CharValue(bs[..w]);
        if !IsScalar(n) || EncodeChar(n as char) != bs[..w] then None
        else
          match FromUtf8(bs[w..])
          case None => None
          case Some(rest) => Some([n as char] + rest)
  }

  lemma CharRoundTrip(c: char)
    ensures CharWidth(EncodeChar(c)[0]) == |EncodeChar(c)|
    ensures CharValue(EncodeChar(c)) == c as int
  {
    var n := c as int;
    assert n / 64 / 64 == n / 4096 && n / 4096 / 64 == n / 262144;
    assert n == n / 64 * 64 + n % 64;
    assert n / 64 == n / 64 / 64 * 64 + n / 64 % 64;
    assert n / 4096 == n / 4096 / 64 * 64 + n / 4096 % 64;
  }

  lemma {:induction false} Utf8RoundTrip(s: string)
    ensures FromUtf8(Utf8(s)) == Some(s)
  {
    if s == "" {
    } else {
      var bs := Utf8(s);
      var w := |EncodeChar(s[0])|;
      CharRoundTrip(s[0]);
      assert bs[0] == EncodeChar(s[0])[0];
      assert bs[..w] == EncodeChar(s[0]);
      assert bs[w..] == Utf8(s[1..]);
      assert IsScalar(s[0] as int);
      Utf8RoundTrip(s[1..]);
      assert s == [s[0]] + s[1..];
    }
  }

  lemma Utf8Injective(a: string, b: string)
    requires Utf8(a) == Utf8(b)
    ensures a == b
  {
    Utf8RoundTrip(a);
    Utf8RoundTrip(b);
  }

  lemma {:induction false} Utf8Concat(a: string, b: string)
    ensures Utf8(a + b) == Utf8(a) + Utf8(b)
  {
    if a == "" {
      assert a + b == b;
    } else {
      assert (a + b)[1..] == a[1..] + b;
      Utf8Concat(a[1..], b);
      assert Utf8(a) + Utf8(b) == EncodeChar(a[0]) + (Utf8(a[1..]) + Utf8(b));
    }
  }

  predicate IsAscii(s: string) {
    forall i :: 0 <= i < |s| ==> s[i] as int < 0x80
  }

  /** ASCII text and its bytes correspond position by position. */
  lemma {:induction false} Utf8Ascii(s: string)
    requires IsAscii(s)
    ensures |Utf8(s)| == |s|
    ensures forall i :: 0 <= i < |s| ==> Utf8(s)[i] as int == s[i] as int
  {
    if s != "" {
      assert forall i :: 0 <= i < |s| - 1 ==> s[1..][i] == s[i + 1];
      Utf8Ascii(s[1..]);
      assert Utf8(s) == [s[0] as int as byte] + Utf8(s[1..]);
      forall i | 0 <= i < |s| ensures Utf8(s)[i] as int == s[i] as int {
        if i > 0 {
          assert Utf8(s)[i] == Utf8(s[1..])[i - 1];
          assert s[i] == s[1..][i - 1];
        }
      }
    }
  }

  // ---------------------------------------------------------------- UTF-16 code units

  /** Where `length` and `slice` matter, a JavaScript string is a sequence of UTF-16 code units. */
  type CodeUnit = u: nat | u < 0x1_0000

  type Units = seq<CodeUnit>

  function ToUnits(s: string): (u: Units)
    requires IsAscii(s)
    ensures |u| == |s|
    ensures forall i :: 0 <= i < |s| ==> u[i] == s[i] as int
  {
    seq(|s|, i requires 0 <= i < |s| => s[i] as int)
  }

  // ---------------------------------------------------------------- decimal numerals

  function Digit(d: nat): (c: char)
    requires d < 10
    ensures '0' <= c <= '9'
  {
    '0' + d as char
  }

  /** `String(n)` for a non-negative integer. */
  function NatText(n: nat): (s: string)
    ensures s != ""
    ensures forall i :: 0 <= i < |s| ==> '0' <= s[i] <= '9'
  {
    if n < 10 then [Digit(n)] else NatText(n / 10) + [Digit(n % 10)]
  }

  /** `String(n)` for any integer. */
  function IntText(n: int): (s: string)
    ensures s != ""
    ensures forall i :: 0 <= i < |s| ==> '0' <= s[i] <= '9' || s[i] == '-'
  {
    if n < 0 then "-" + NatText(-n) else NatText(n)
  }

  function NatValue(s: string): nat
    requires forall i :: 0 <= i < |s| ==> '0' <= s[i] <= '9'
  {
    if s == "" then 0
    else NatValue(s[..|s| - 1]) * 10 + (s[|s| - 1] as int - '0' as int)
  }

  lemma {:induction false} NatTextRoundTrip(n: nat)
    ensures NatValue(NatText(n)) == n
  {
    if n < 10 {
      assert NatText(n)[..0] == "";
    } else {
      NatTextRoundTrip(n / 10);
      assert NatText(n)[..|NatText(n)| - 1] == NatText(n / 10);
    }
  }

  lemma IntTextSign(n: int)
    ensures IntText(n)[0] == '-' <==> n < 0
    ensures n < 0 ==> IntText(n)[1..] == NatText(-n)
  {
  }

  lemma NatTextInjective(a: nat, b: nat)
    requires NatText(a) == NatText(b)
    ensures a == b
  {
    NatTextRoundTrip(a);
    NatTextRoundTrip(b);
  }

  lemma IntTextInjective(a: int, b: int)
    requires IntText(a) == IntText(b)
    ensures a == b
  {
    IntTextSign(a);
    IntTextSign(b);
    NatTextInjective(if a < 0 then -a else a, if b < 0 then -b else b);
  }

  // ---------------------------------------------------------------- String.prototype.trim

  /** The white space and line terminators that `trim` removes. */
  predicate IsSpace(c: char) {
    var n := c as int;
    0x09 <= n <= 0x0D || n == 0x20 || n == 0xA0 || n == 0x1680 || 0x2000 <= n <= 0x200A
    || n == 0x2028 || n == 0x2029 || n == 0x202F || n == 0x205F || n == 0x3000 || n == 0xFEFF
  }

  function TrimStart(s: string): (r: string)
    ensures |r| <= |s| && r == s[|s| - |r|..]
    ensures r != "" ==> !IsSpace(r[0])
  {
    if s != "" && IsSpace(s[0]) then TrimStart(s[1..]) else s
  }

  function TrimEnd(s: string): (r: string)
    ensures |r| <= |s| && r == s[..|r|]
    ensures r != "" ==> !IsSpace(r[|r| - 1])
  {
    if s != "" && IsSpace(s[|s| - 1]) then TrimEnd(s[..|s| - 1]) else s
  }

  function Trim(s: string): string {
    TrimEnd(TrimStart(s))
  }

  predicate IsAllSpace(s: string) {
    forall c :: c in s ==> IsSpace(c)
  }

  lemma {:induction false} TrimStartMeaning(s: string)
    ensures IsAllSpace(s[..|s| - |TrimStart(s)|])
  {
    if s != "" && IsSpace(s[0]) {
      TrimStartMeaning(s[1..]);
      assert s[..|s| - |TrimStart(s)|] == [s[0]] + s[1..][..|s| - 1 - |TrimStart(s)|];
    }
  }

  lemma {:induction false} TrimEndMeaning(s: string)
    ensures IsAllSpace(s[|TrimEnd(s)|..])
  {
    if s != "" && IsSpace(s[|s| - 1]) {
      TrimEndMeaning(s[..|s| - 1]);
      assert s[|TrimEnd(s)|..] == s[..|s| - 1][|TrimEnd(s)|..] + [s[|s| - 1]];
    }
  }

  /** Trimming takes white space off both ends, and all of it. */
  lemma TrimMeaning(s: string) returns (before: string, after: string)
    ensures s == before + Trim(s) + after && IsAllSpace(before) && IsAllSpace(after)
    ensures Trim(s) != "" ==> !IsSpace(Trim(s)[0]) && !IsSpace(Trim(s)[|Trim(s)| - 1])
  {
    hide IsSpace, IsAllSpace, TrimStart, TrimEnd;
    var t := TrimStart(s);
    TrimStartMeaning(s);
    TrimEndMeaning(t);
    before, after := s[..|s| - |t|], t[|TrimEnd(t)|..];
    assert t == TrimEnd(t) + after;
    assert s == before + t;
    TrimmedFront(t);
  }

  lemma TrimmedFront(t: string)
    requires t != "" ==> !IsSpace(t[0])
    ensures TrimEnd(t) != "" ==> !IsSpace(TrimEnd(t)[0])
  {
    hide IsSpace, TrimEnd;
  }

  // ---------------------------------------------------------------- JSON.stringify of a string

  function HexDigit(d: nat): char
    requires d < 16
  {
    if d < 10 then Digit(d) else 'a' + (d - 10) as char
  }

  function QuoteChar(c: char): string {
    var n := c as int;
    if c == '\"' then "\\\"" else if c == '\\' then "\\\\"
    else if n == 8 then "\\b" else if n == 12 then "\\f"
    else if c == '\n' then "\\n" else if c == '\r' then "\\r" else if c == '\t' then "\\t"
    else if n < 32 then "\\u00" + [HexDigit(n / 16), HexDigit(n % 16)]
    else [c]
  }

  function QuoteBody(s: string): string {
    if s == "" then "" else QuoteChar(s[0]) + QuoteBody(s[1..])
  }

  function JsonQuote(s: string): string {
    "\"" + QuoteBody(s) + "\""
  }

  /** Quotes, backslashes and control characters are escaped, nothing else. */
  lemma QuoteExample()
    ensures QuoteChar('a') == "a" && QuoteChar('\"') == "\\\"" && QuoteChar('\\') == "\\\\" && QuoteChar('\n') == "\\n"
    ensures QuoteChar(31 as char) == "\\u001f" && QuoteChar(127 as char) == [127 as char]
    ensures JsonQuote("") == "\"\"" && forall c, s :: JsonQuote([c] + s) == "\"" + QuoteChar(c) + JsonQuote(s)[1..]
  {
    forall c, s ensures JsonQuote([c] + s) == "\"" + QuoteChar(c) + JsonQuote(s)[1..] {
      assert ([c] + s)[1..] == s;
    }
  }
}
