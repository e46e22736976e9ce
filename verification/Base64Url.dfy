/** base64 and its URL-safe form without padding (sections 4 and 5 of RFC 4648). */
module Base64Url {
  import opened Text

  // ---------------------------------------------------------------- the alphabet

  function Symbol(v: nat): (c: char)
    requires v < 64
    ensures c != '=' && c != '-' && c != '_' && c != '.'
  {
    if v < 26 then 'A' + v as char
    else if v < 52 then 'a' + (v - 26) as char
    else if v < 62 then '0' + (v - 52) as char
    else if v == 62 then '+'
    else '/'
  }

  function SymbolValue(c: char): Option<nat> {
    if 'A' <= c <= 'Z' then Some(c as int - 'A' as int)
    else if 'a' <= c <= 'z' then Some(c as int - 'a' as int + 26)
    else if '0' <= c <= '9' then Some(c as int - '0' as int + 52)
    else if c == '+' then Some(62)
    else if c == '/' then Some(63)
    else None
  }

  lemma SymbolRoundTrip(v: nat)
    requires v < 64
    ensures SymbolValue(Symbol(v)) == Some(v)
  {
  }

  // ---------------------------------------------------------------- base64 with padding

  function Quad(a: nat, b: nat, c: nat): (s: string)
    requires a < 256 && b < 256 && c < 256
    ensures |s| == 4
  {
    [Symbol(a / 4), Symbol(a % 4 * 16 + b / 16), Symbol(b % 16 * 4 + c / 64), Symbol(c % 64)]
  }

  /** `Buffer.toString('base64')` */
  function Encode(bs: Bytes): (s: string)
    ensures |s| % 4 == 0
  {
    if bs == [] then ""
    else if |bs| == 1 then Quad(bs[0] as nat, 0, 0)[..2] + "=="
    else if |bs| == 2 then Quad(bs[0] as nat, bs[1] as nat, 0)[..3] + "="
    else Quad(bs[0] as nat, bs[1] as nat, bs[2] as nat) + Encode(bs[3..])
  }

  /** The bytes of one group of symbol values: three, or fewer at the end. */
  function Triple(w: nat, x: nat, y: nat, z: nat): Bytes
    requires w < 64 && x < 64 && y < 64 && z < 64
  {
    [(w * 4 + x / 16) as byte, (x % 16 * 16 + y / 4) as byte, (y % 4 * 64 + z) as byte]
  }

  /** Decoding of well-formed padded base64; `None` for anything else. */
  function Decode(s: string): Option<Bytes> {
    if s == "" then Some([])
    else if |s| < 4 then None
    else
      var w, x, y, z := SymbolValue(s[0]), SymbolValue(s[1]), SymbolValue(s[2]), SymbolValue(s[3]);
      if w.None? || x.None? then None
      else if s[2..] == "==" then Some(Triple(w.value, x.value, 0, 0)[..1])
      else if y.None? then None
      else if s[3..] == "=" then Some(Triple(w.value, x.value, y.value, 0)[..2])
      else if z.None? then None
      else
        match Decode(s[4..])
        case None => None
        case Some(rest) => Some(Triple(w.value, x.value, y.value, z.value) + rest)
  }

  lemma GroupRoundTrip(a: nat, b: nat, c: nat)
    requires a < 256 && b < 256 && c < 256
    ensures var w, x, y, z := a / 4, a % 4 * 16 + b / 16, b % 16 * 4 + c / 64, c % 64;
            && w < 64 && x < 64 && y < 64 && z < 64
            && Triple(w, x, y, z) == [a as byte, b as byte, c as byte]
  {
  }

  /** The four symbols of a group and the values they stand for. */
  lemma QuadSymbols(a: nat, b: nat, c: nat)
    requires a < 256 && b < 256 && c < 256
    ensures var q := Quad(a, b, c);
            && SymbolValue(q[0]) == Some(a / 4) && SymbolValue(q[1]) == Some(a % 4 * 16 + b / 16)
            && SymbolValue(q[2]) == Some(b % 16 * 4 + c / 64) && SymbolValue(q[3]) == Some(c % 64)
            && q[2] != '=' && q[3] != '='
  {
    SymbolRoundTrip(a / 4);
    SymbolRoundTrip(a % 4 * 16 + b / 16);
    SymbolRoundTrip(b % 16 * 4 + c / 64);
    SymbolRoundTrip(c % 64);
  }

  lemma FullGroupDecodes(a: nat, b: nat, c: nat, rest: string)
    requires a < 256 && b < 256 && c < 256 && Decode(rest).Some?
    ensures Decode(Quad(a, b, c) + rest) == Some([a as byte, b as byte, c as byte] + Decode(rest).value)
  {
    hide Quad, SymbolValue, Triple;
    QuadSymbols(a, b, c);
    GroupRoundTrip(a, b, c);
    var s := Quad(a, b, c) + rest;
    assert s[4..] == rest;
    assert s[2..][0] != '=' && s[3..][0] != '=';
  }

  lemma LastGroupDecodes(a: nat, b: nat)
    requires a < 256 && b < 256
    ensures Decode(Quad(a, 0, 0)[..2] + "==") == Some([a as byte])
    ensures Decode(Quad(a, b, 0)[..3] + "=") == Some([a as byte, b as byte])
  {
    hide Quad, SymbolValue, Triple;
    QuadSymbols(a, 0, 0);
    GroupRoundTrip(a, 0, 0);
    QuadSymbols(a, b, 0);
    GroupRoundTrip(a, b, 0);
    var one, two := Quad(a, 0, 0)[..2] + "==", Quad(a, b, 0)[..3] + "=";
    assert one[2..] == "==" && two[3..] == "=" && two[2..][0] != '=';
    assert [a as byte, 0, 0][..1] == [a as byte];
    assert [a as byte, b as byte, 0][..2] == [a as byte, b as byte];
  }

  lemma {:induction false} DecodeEncode(bs: Bytes)
    ensures Decode(Encode(bs)) == Some(bs)
  {
    hide Decode, Quad;
    if bs == [] {
      EmptyDecodes();
    } else if |bs| == 1 {
      LastGroupDecodes(bs[0] as nat, 0);
      assert bs == [bs[0]];
    } else if |bs| == 2 {
      LastGroupDecodes(bs[0] as nat, bs[1] as nat);
      assert bs == [bs[0], bs[1]];
    } else {
      DecodeEncode(bs[3..]);
      FullGroupDecodes(bs[0] as nat, bs[1] as nat, bs[2] as nat, Encode(bs[3..]));
      assert bs == [bs[0], bs[1], bs[2]] + bs[3..];
    }
  }

  lemma EmptyDecodes()
    ensures Decode("") == Some([])
  {
  }

  // ---------------------------------------------------------------- the URL-safe form

  function Replace(s: string, a: char, b: char): (r: string)
    ensures |r| == |s|
    ensures forall i :: 0 <= i < |s| ==> r[i] == if s[i] == a then b else s[i]
  {
    seq(|s|, i requires 0 <= i < |s| => if s[i] == a then b else s[i])
  }

  /** replace(/=+$/g, '') */
  function StripPadding(s: string): string {
    if s != "" && s[|s| - 1] == '=' then StripPadding(s[..|s| - 1]) else s
  }

  /** `base64UrlEncode` on the bytes of its input. */
  function UrlEncode(bs: Bytes): string {
    StripPadding(Replace(Replace(Encode(bs), '+', '-'), '/', '_'))
  }

  function Padding(n: nat): string {
    if n == 0 then "" else "=" + Padding(n - 1)
  }

  /** The padded text that `base64UrlDecode` hands to the base64 decoder. */
  function Normalized(input: string): string {
    Replace(Replace(input, '-', '+'), '_', '/') + Padding((4 - |input| % 4) % 4)
  }

  /** `base64UrlDecode` before UTF-8; `lenient` is what the decoder makes of text that is not well formed. */
  function UrlDecode(input: string, lenient: string -> Bytes): Bytes {
    match Decode(Normalized(input))
    case Some(bs) => bs
    case None => lenient(Normalized(input))
  }

  /** How many `=` end the base64 text of `n` bytes. */
  function PadCount(n: nat): nat {
    if n % 3 == 0 then 0 else 3 - n % 3
  }

  /** The symbols that carry the bytes, before any padding. */
  function Symbols(bs: Bytes): string {
    if bs == [] then ""
    else if |bs| == 1 then Quad(bs[0] as nat, 0, 0)[..2]
    else if |bs| == 2 then Quad(bs[0] as nat, bs[1] as nat, 0)[..3]
    else Quad(bs[0] as nat, bs[1] as nat, bs[2] as nat) + Symbols(bs[3..])
  }

  /** A padded text is its symbols and then exactly the padding. */
  lemma {:induction false} EncodeShape(bs: Bytes)
    ensures Encode(bs) == Symbols(bs) + Padding(PadCount(|bs|))
    ensures forall i :: 0 <= i < |Symbols(bs)| ==> SymbolValue(Symbols(bs)[i]).Some?
  {
    hide Quad, SymbolValue;
    if bs != [] {
      var a := bs[0] as nat;
      var b := if |bs| > 1 then bs[1] as nat else 0;
      var c := if |bs| > 2 then bs[2] as nat else 0;
      QuadSymbols(a, b, c);
    }
    if |bs| == 1 {
      assert Padding(2) == "=" + Padding(1) == "==";
    } else if |bs| == 2 {
      assert Padding(1) == "=";
    } else if |bs| > 2 {
      EncodeShape(bs[3..]);
      assert PadCount(|bs|) == PadCount(|bs[3..]|);
    }
  }

  lemma {:induction false} StripsExactly(s: string, p: nat)
    requires s != "" ==> s[|s| - 1] != '='
    ensures StripPadding(s + Padding(p)) == s
  {
    if p == 0 {
      assert s + Padding(0) == s;
    } else {
      PaddingFromTheEnd(p);
      var t := s + Padding(p);
      assert t[|t| - 1] == '=';
      assert t[..|t| - 1] == s + Padding(p - 1);
      StripsExactly(s, p - 1);
    }
  }

  lemma {:induction false} PaddingFromTheEnd(p: nat)
    ensures |Padding(p)| == p && forall i :: 0 <= i < p ==> Padding(p)[i] == '='
    ensures p > 0 ==> Padding(p) == Padding(p - 1) + "="
  {
    if p > 0 {
      PaddingFromTheEnd(p - 1);
    }
  }

  lemma UrlEncodeShape(bs: Bytes)
    ensures UrlEncode(bs) == Replace(Replace(Symbols(bs), '+', '-'), '/', '_')
  {
    hide Encode, Symbols, SymbolValue;
    EncodeShape(bs);
    var p := PadCount(|bs|);
    PaddingFromTheEnd(p);
    var body := Replace(Replace(Symbols(bs), '+', '-'), '/', '_');
    assert Replace(Replace(Encode(bs), '+', '-'), '/', '_') == body + Padding(p);
    if body != "" {
      SymbolIsNotPadding(Symbols(bs)[|body| - 1]);
    }
    StripsExactly(body, p);
  }

  lemma SymbolIsNotPadding(c: char)
    requires SymbolValue(c).Some?
    ensures c != '=' && c != '-' && c != '_' && c != '.'
  {
  }

  /** Recomputed padding restores exactly what was stripped, for every byte length. */
  lemma PaddingIsRestored(bs: Bytes)
    ensures Normalized(UrlEncode(bs)) == Encode(bs)
  {
    hide Encode, Symbols, SymbolValue;
    EncodeShape(bs);
    UrlEncodeShape(bs);
    var s := Symbols(bs);
    forall i | 0 <= i < |s| ensures s[i] != '-' && s[i] != '_' {
      SymbolIsNotPadding(s[i]);
    }
    assert Replace(Replace(UrlEncode(bs), '-', '+'), '_', '/') == s;
    PaddingFromTheEnd(PadCount(|bs|));
    assert |Encode(bs)| == |s| + PadCount(|bs|);
    assert (4 - |s| % 4) % 4 == PadCount(|bs|);
  }

  /** The groups behind the test vectors of section 10 of RFC 4648, and the two last symbols. */
  lemma QuadVectors()
    ensures Quad(102, 0, 0)[..2] == "Zg" && Quad(102, 111, 0)[..3] == "Zm8"
    ensures Quad(102, 111, 111) == "Zm9v" && Quad(98, 97, 114) == "YmFy" && Quad(251, 239, 255) == "++//"
  {
  }

  /** The test vectors: f, fo, foo and foobar. */
  lemma TestVectors()
    ensures Encode([]) == "" && Encode([102]) == "Zg==" && Encode([102, 111]) == "Zm8="
    ensures Encode([102, 111, 111]) == "Zm9v" && Encode([102, 111, 111, 98, 97, 114]) == "Zm9vYmFy"
  {
    hide Quad;
    QuadVectors();
    var six: Bytes := [102, 111, 111, 98, 97, 114];
    assert six[3..] == [98, 97, 114] && [98, 97, 114][3..] == [] && [102, 111, 111][3..] == [];
    assert Encode([98, 97, 114]) == "YmFy";
  }

  /** The URL-safe form replaces the two last symbols and has no padding. */
  lemma UrlVectors()
    ensures UrlEncode([251, 239, 255]) == "--__" && UrlEncode([102]) == "Zg"
  {
    hide Quad;
    QuadVectors();
    assert [251, 239, 255][3..] == [];
    assert Encode([251, 239, 255]) == "++//" && Encode([102]) == "Zg==";
    ReplacesAll();
  }

  lemma ReplacesAll()
    ensures Replace(Replace("++//", '+', '-'), '/', '_') == "--__" && StripPadding("--__") == "--__"
    ensures Replace(Replace("Zg==", '+', '-'), '/', '_') == "Zg==" && StripPadding("Zg==") == "Zg"
  {
  }

  lemma UrlRoundTrip(bs: Bytes, lenient: string -> Bytes)
    ensures UrlDecode(UrlEncode(bs), lenient) == bs
  {
    PaddingIsRestored(bs);
    DecodeEncode(bs);
  }

  lemma UrlEncodeInjective(a: Bytes, b: Bytes)
    requires UrlEncode(a) == UrlEncode(b)
    ensures a == b
  {
    UrlRoundTrip(a, _ => []);
    UrlRoundTrip(b, _ => []);
  }

  lemma UrlEncodeHasNoDot(bs: Bytes)
    ensures '.' !in UrlEncode(bs)
  {
    EncodeShape(bs);
    UrlEncodeShape(bs);
    var s := Symbols(bs);
    forall i | 0 <= i < |s| ensures UrlEncode(bs)[i] != '.' {
      SymbolIsNotPadding(s[i]);
    }
  }
}
