/** Concrete syntax of JSON, sections 2 to 7 of RFC 8259. */
module JsonText {
  import opened Text

  predicate IsBlank(s: string) {
    forall c :: c in s ==> c == ' ' || c == '\t' || c == '\n' || c == '\r'
  }

  predicate IsDigits(s: string) {
    s != "" && forall c :: c in s ==> '0' <= c <= '9'
  }

  predicate IsHex(c: char) {
    '0' <= c <= '9' || 'a' <= c <= 'f' || 'A' <= c <= 'F'
  }

  type Blank = s: string | IsBlank(s)

  type Digits = s: string | IsDigits(s) witness "0"

  type HexDigit = c: char | IsHex(c) witness '0'

  type PlainChar = c: char | c as int >= 0x20 && c != '\"' && c != '\\' witness 'a'

  type EscapedChar = c: char | c in "\"\\/bfnrt" witness 'n'

  datatype Piece = Plain(c: PlainChar) | Escape(e: EscapedChar) | Unicode(h1: HexDigit, h2: HexDigit, h3: HexDigit, h4: HexDigit)

  datatype Sign = NoSign | PlusSign | MinusSign

  /** Also covers numerals with leading zeros, which the RFC refuses. */
  datatype Number = Number(negative: bool, whole: Digits, fraction: Option<Digits>, exponent: Option<Exponent>)

  datatype Exponent = Exponent(capital: bool, sign: Sign, digits: Digits)

  datatype Value =
    | True
    | False
    | Null
    | Numeral(number: Number)
    | Quoted(pieces: seq<Piece>)
    | Array(inside: Blank, items: Items)
    | Object(inside: Blank, members: Members)

  datatype Items = NoItems | Item(before: Blank, value: Value, after: Blank, rest: Items)

  datatype Members = NoMembers
    | Member(before: Blank, key: seq<Piece>, beforeColon: Blank, afterColon: Blank, value: Value, after: Blank, rest: Members)

  // ---------------------------------------------------------------- printing

  function PrintPiece(p: Piece): string {
    match p
    case Plain(c) => [c]
    case Escape(e) => ['\\', e]
    case Unicode(h1, h2, h3, h4) => ['\\', 'u', h1, h2, h3, h4]
  }

  function PrintPieces(ps: seq<Piece>): string {
    if ps == [] then "" else PrintPiece(ps[0]) + PrintPieces(ps[1..])
  }

  function PrintString(ps: seq<Piece>): string {
    "\"" + PrintPieces(ps) + "\""
  }

  function PrintExponent(e: Exponent): string {
    (if e.capital then "E" else "e")
    + (match e.sign case NoSign => "" case PlusSign => "+" case MinusSign => "-")
    + e.digits
  }

  function PrintNumber(n: Number): string {
    (if n.negative then "-" else "") + n.whole
    + (match n.fraction case None => "" case Some(f) => "." + f)
    + (match n.exponent case None => "" case Some(e) => PrintExponent(e))
  }

  function Print(v: Value): string {
    match v
    case True => "true"
    case False => "false"
    case Null => "null"
    case Numeral(n) => PrintNumber(n)
    case Quoted(ps) => PrintString(ps)
    case Array(inside, items) => "[" + inside + PrintItems(items) + "]"
    case Object(inside, members) => "{" + inside + PrintMembers(members) + "}"
  }

  function PrintItems(items: Items): string {
    match items
    case NoItems => ""
    case Item(before, value, after, rest) =>
      before + Print(value) + after + (if rest.NoItems? then "" else ",") + PrintItems(rest)
  }

  function PrintMembers(members: Members): string {
    match members
    case NoMembers => ""
    case Member(before, key, beforeColon, afterColon, value, after, rest) =>
      before + PrintString(key) + beforeColon + ":" + afterColon + Print(value) + after
      + (if rest.NoMembers? then "" else ",") + PrintMembers(rest)
  }
}
