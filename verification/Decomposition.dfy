/** Reading a task decomposition out of a model's answer: the code fence, the brace scanner, the filter. */
module Decomposition {
  import opened Text
  import opened JsonText

  // ---------------------------------------------------------------- the brace scanner

  /** `depth`, `inStr` and `esc`. */
  datatype Scanner = Scanner(depth: int, inStr: bool, esc: bool)

  /** One turn of the loop; `None` when it breaks at the closing brace. */
  function Step(s: Scanner, c: char): Option<Scanner> {
    if s.inStr then
      Some(if s.esc then s.(esc := false) else if c == '\\' then s.(esc := true)
           else if c == '\"' then s.(inStr := false) else s)
    else if c == '\"' then Some(s.(inStr := true))
    else if c == '{' then Some(s.(depth := s.depth + 1))
    else if c == '}' then (if s.depth - 1 == 0 then None else Some(s.(depth := s.depth - 1)))
    else Some(s)
  }

  /** Where the loop breaks, counted from the start of `text`. */
  function Scan(text: string, s: Scanner): (end: Option<nat>)
    ensures end.Some? ==> end.value < |text| && text[end.value] == '}'
  {
    if text == "" then None
    else
      match Step(s, text[0])
      case None => Some(0)
      case Some(next) =>
        match Scan(text[1..], next)
        case None => None
        case Some(n) => Some(n + 1)
  }

  /** The state after all of `text`; `None` if the loop breaks inside it. */
  function After(text: string, s: Scanner): Option<Scanner> {
    if text == "" then Some(s)
    else
      match Step(s, text[0])
      case None => None
      case Some(next) => After(text[1..], next)
  }

  function Shifted(n: Option<nat>, offset: nat): Option<nat> {
    match n case None => None case Some(k) => Some(offset + k)
  }

  /** The scan of what is left of `text` from `i` on, as a position in `text`. */
  function ScanFrom(text: string, i: nat, s: Scanner): (end: Option<nat>)
    requires i <= |text|
    ensures end.Some? ==> i <= end.value < |text| && text[end.value] == '}'
  {
    Shifted(Scan(text[i..], s), i)
  }

  lemma ScanFromStep(text: string, i: nat, s: Scanner)
    requires i < |text|
    ensures ScanFrom(text, i, s) == match Step(s, text[i]) case None => Some(i) case Some(next) => ScanFrom(text, i + 1, next)
  {
    hide Step;
    assert text[i..][0] == text[i] && text[i..][1..] == text[i + 1..];
  }

  lemma ScanFromEnd(text: string, s: Scanner)
    ensures ScanFrom(text, |text|, s) == None
  {
    assert text[|text|..] == "";
  }

  /** The scanner loop. */
  method FindEnd(text: string, start: nat) returns (end: int)
    requires start <= |text|
    ensures match ScanFrom(text, start, Outside(0))
            case None => end == -1
            case Some(k) => end == k
  {
    hide ScanFrom;
    var depth, inStr, esc := 0, false, false;
    end := -1;
    var i := start;
    while i < |text|
      invariant start <= i <= |text|
      invariant end == -1
      invariant ScanFrom(text, i, Scanner(depth, inStr, esc)) == ScanFrom(text, start, Outside(0))
    {
      var c := text[i];
      ScanFromStep(text, i, Scanner(depth, inStr, esc));
      if inStr {
        if esc {
          esc := false;
        } else if c == '\\' {
          esc := true;
        } else if c == '\"' {
          inStr := false;
        }
      } else if c == '\"' {
        inStr := true;
      } else if c == '{' {
        depth := depth + 1;
      } else if c == '}' {
        depth := depth - 1;
        if depth == 0 {
          end := i;
          return;
        }
      }
      i := i + 1;
    }
    ScanFromEnd(text, Scanner(depth, inStr, esc));
  }

  lemma AfterCons(c: char, rest: string, s: Scanner)
    ensures After([c] + rest, s) == match Step(s, c) case None => None case Some(next) => After(rest, next)
  {
    assert ([c] + rest)[0] == c && ([c] + rest)[1..] == rest;
  }

  lemma {:induction false} AfterConcat(a: string, b: string, s: Scanner)
    ensures After(a + b, s) == match After(a, s) case None => None case Some(t) => After(b, t)
  {
    if a == "" {
      assert a + b == b;
    } else if Step(s, a[0]).Some? {
      assert (a + b)[1..] == a[1..] + b;
      AfterConcat(a[1..], b, Step(s, a[0]).value);
    }
  }

  lemma {:induction false} ScanAfter(a: string, b: string, s: Scanner)
    requires After(a, s).Some?
    ensures Scan(a + b, s) == Shifted(Scan(b, After(a, s).value), |a|)
  {
    if a == "" {
      assert a + b == b;
    } else {
      assert (a + b)[1..] == a[1..] + b;
      ScanAfter(a[1..], b, Step(s, a[0]).value);
    }
  }

  // ---------------------------------------------------------------- the scanner on JSON text

  /** The text leaves the scanner outside strings at depth `d`, as it found it. */
  predicate Neutral(text: string, d: int) {
    After(text, Outside(d)) == Some(Outside(d))
  }

  function Outside(d: int): Scanner {
    Scanner(d, false, false)
  }

  /** No character that the scanner reacts to. */
  predicate IsDull(text: string) {
    forall c :: c in text ==> c != '\"' && c != '{' && c != '}'
  }

  lemma {:induction false} DullIsNeutral(text: string, d: int)
    requires IsDull(text)
    ensures Neutral(text, d)
  {
    if text != "" {
      assert text[0] in text;
      assert forall c :: c in text[1..] ==> c in text;
      DullIsNeutral(text[1..], d);
    }
  }

  lemma NeutralConcat(a: string, b: string, d: int)
    requires Neutral(a, d) && Neutral(b, d)
    ensures Neutral(a + b, d)
  {
    AfterConcat(a, b, Outside(d));
  }

  lemma {:induction false} PiecesStayInside(ps: seq<Piece>, d: int)
    ensures After(PrintPieces(ps), Scanner(d, true, false)) == Some(Scanner(d, true, false))
  {
    if ps != [] {
      var s := Scanner(d, true, false);
      PieceStaysInside(ps[0], d);
      PiecesStayInside(ps[1..], d);
      AfterConcat(PrintPiece(ps[0]), PrintPieces(ps[1..]), s);
    }
  }

  lemma PieceStaysInside(p: Piece, d: int)
    ensures After(PrintPiece(p), Scanner(d, true, false)) == Some(Scanner(d, true, false))
  {
    var s := Scanner(d, true, false);
    match p
    case Plain(c) =>
      AfterCons(c, "", s);
    case Escape(e) =>
      AfterCons('\\', [e], s);
      AfterCons(e, "", s.(esc := true));
      assert PrintPiece(p) == ['\\'] + [e] && [e] == [e] + "";
    case Unicode(h1, h2, h3, h4) =>
      var hex := [h1, h2, h3, h4];
      HexStaysInside(hex, d);
      AfterCons('\\', ['u'] + hex, s);
      AfterCons('u', hex, s.(esc := true));
      assert PrintPiece(p) == ['\\'] + (['u'] + hex);
  }

  lemma {:induction false} HexStaysInside(h: string, d: int)
    requires forall c :: c in h ==> IsHex(c)
    ensures After(h, Scanner(d, true, false)) == Some(Scanner(d, true, false))
  {
    if h != "" {
      assert h[0] in h;
      HexStaysInside(h[1..], d);
    }
  }

  lemma StringIsNeutral(ps: seq<Piece>, d: int)
    ensures Neutral(PrintString(ps), d)
  {
    PiecesStayInside(ps, d);
    var body := PrintPieces(ps);
    AfterConcat(body, "\"", Scanner(d, true, false));
    AfterCons('\"', "", Scanner(d, true, false));
    AfterCons('\"', body + "\"", Outside(d));
    assert "\"" == ['\"'] + "" && PrintString(ps) == ['\"'] + (body + "\"");
  }

  lemma NumberIsDull(n: Number)
    ensures IsDull(PrintNumber(n))
  {
    var fraction := match n.fraction case None => "" case Some(f) => "." + f;
    var exponent := match n.exponent case None => "" case Some(e) => PrintExponent(e);
    assert IsDull(n.whole);
    assert IsDull(fraction);
    if n.exponent.Some? {
      assert IsDull(n.exponent.value.digits);
    }
    assert IsDull(exponent);
  }

  /** Inside an object, every value leaves the scanner as it found it. */
  lemma {:induction false} ValueIsNeutral(v: Value, d: int)
    requires d >= 1
    ensures Neutral(Print(v), d)
    decreases v, 1
  {
    match v
    case True => DullIsNeutral("true", d);
    case False => DullIsNeutral("false", d);
    case Null => DullIsNeutral("null", d);
    case Numeral(n) => NumberIsDull(n); DullIsNeutral(PrintNumber(n), d);
    case Quoted(ps) => StringIsNeutral(ps, d);
    case Array(inside, items) =>
      hide Neutral;
      DullIsNeutral("[", d);
      DullIsNeutral(inside, d);
      ItemsAreNeutral(items, d);
      DullIsNeutral("]", d);
      NeutralConcat("[", inside, d);
      NeutralConcat("[" + inside, PrintItems(items), d);
      NeutralConcat("[" + inside + PrintItems(items), "]", d);
    case Object(inside, members) =>
      CloseObject(inside, members, d);
  }

  lemma CloseObject(inside: Blank, members: Members, d: int)
    requires d >= 1
    ensures Neutral("{" + inside + PrintMembers(members) + "}", d)
    decreases members, 2
  {
    hide After;
    OpenObject(inside, members, d);
    AfterConcat("{" + inside + PrintMembers(members), "}", Outside(d));
    AfterCons('}', "", Outside(d + 1));
    EmptyAfter(Outside(d));
    assert "}" == ['}'] + "";
  }

  lemma EmptyAfter(s: Scanner)
    ensures After("", s) == Some(s)
  {
  }

  /** Up to its last brace, an object leaves the scanner one level deeper. */
  lemma OpenObject(inside: Blank, members: Members, d: int)
    requires d >= 0
    ensures After("{" + inside + PrintMembers(members), Outside(d)) == Some(Outside(d + 1))
    decreases members, 1
  {
    hide After, Print, PrintMembers;
    assert IsDull(inside);
    hide IsDull;
    DullIsNeutral(inside, d + 1);
    MembersAreNeutral(members, d + 1);
    var body := inside + PrintMembers(members);
    NeutralConcat(inside, PrintMembers(members), d + 1);
    AfterCons('{', body, Outside(d));
    assert "{" + inside + PrintMembers(members) == ['{'] + body;
  }

  lemma {:induction false} ItemsAreNeutral(items: Items, d: int)
    requires d >= 1
    ensures Neutral(PrintItems(items), d)
    decreases items, 0
  {
    match items
    case NoItems =>
    case Item(before, value, after, rest) =>
      hide Neutral;
      var comma := if rest.NoItems? then "" else ",";
      DullIsNeutral(before, d);
      ValueIsNeutral(value, d);
      DullIsNeutral(after, d);
      DullIsNeutral(comma, d);
      ItemsAreNeutral(rest, d);
      NeutralConcat(before, Print(value), d);
      NeutralConcat(before + Print(value), after, d);
      NeutralConcat(before + Print(value) + after, comma, d);
      NeutralConcat(before + Print(value) + after + comma, PrintItems(rest), d);
  }

  lemma {:induction false} MembersAreNeutral(members: Members, d: int)
    requires d >= 1
    ensures Neutral(PrintMembers(members), d)
    decreases members, 0
  {
    match members
    case NoMembers =>
    case Member(before, key, beforeColon, afterColon, value, after, rest) =>
      hide Neutral;
      MemberPartsAreNeutral(members, d);
      ValueIsNeutral(value, d);
      MembersAreNeutral(rest, d);
      var comma := if rest.NoMembers? then "" else ",";
      var head := before + PrintString(key) + beforeColon + ":" + afterColon;
      NeutralConcat(head, Print(value), d);
      NeutralConcat(head + Print(value), after, d);
      NeutralConcat(head + Print(value) + after, comma, d);
      NeutralConcat(head + Print(value) + after + comma, PrintMembers(rest), d);
  }

  lemma MemberPartsAreNeutral(m: Members, d: int)
    requires m.Member?
    ensures Neutral(m.before + PrintString(m.key) + m.beforeColon + ":" + m.afterColon, d)
    ensures Neutral(m.after, d) && Neutral("", d) && Neutral(",", d)
  {
    hide Neutral;
    DullIsNeutral(m.before, d);
    StringIsNeutral(m.key, d);
    DullIsNeutral(m.beforeColon, d);
    DullIsNeutral(":", d);
    DullIsNeutral(m.afterColon, d);
    DullIsNeutral(m.after, d);
    DullIsNeutral("", d);
    DullIsNeutral(",", d);
    NeutralConcat(m.before, PrintString(m.key), d);
    NeutralConcat(m.before + PrintString(m.key), m.beforeColon, d);
    NeutralConcat(m.before + PrintString(m.key) + m.beforeColon, ":", d);
    NeutralConcat(m.before + PrintString(m.key) + m.beforeColon + ":", m.afterColon, d);
  }

  /** Started at an object, the scanner breaks exactly at that object's last brace. */
  lemma ScanFindsObject(obj: Value, rest: string)
    requires obj.Object?
    ensures Scan(Print(obj) + rest, Outside(0)) == Some(|Print(obj)| - 1)
  {
    hide After;
    var open := "{" + obj.inside + PrintMembers(obj.members);
    OpenObject(obj.inside, obj.members, 0);
    ScanAfter(open, "}" + rest, Outside(0));
    ScanClose(rest);
    assert Print(obj) + rest == open + ("}" + rest);
  }

  lemma ScanClose(rest: string)
    ensures Scan("}" + rest, Outside(1)) == Some(0)
  {
  }

  // ---------------------------------------------------------------- the code fence

  /** Three backticks at position `i`. */
  predicate IsMark(s: string, i: int) {
    0 <= i && i + 3 <= |s| && s[i] == s[i + 1] == s[i + 2] == '`'
  }

  /** The first mark at or after `from`. */
  function FirstMark(s: string, from: nat): (p: Option<nat>)
    ensures p.Some? ==> from <= p.value && IsMark(s, p.value) && forall i :: from <= i < p.value ==> !IsMark(s, i)
    ensures p.None? ==> forall i :: from <= i ==> !IsMark(s, i)
    decreases |s| - from
  {
    if from >= |s| then None else if IsMark(s, from) then Some(from) else FirstMark(s, from + 1)
  }

  function Lower(c: char): char {
    if 'A' <= c <= 'Z' then c + 32 as char else c
  }

  /** Past an optional `json`, in any case. */
  function SkipTag(s: string, i: nat): (e: nat)
    requires i <= |s|
    ensures i <= e <= |s| && forall k :: i <= k < e ==> !IsMark(s, k) && s[k] != '{'
  {
    if i + 4 <= |s| && Lower(s[i]) == 'j' && Lower(s[i + 1]) == 's' && Lower(s[i + 2]) == 'o' && Lower(s[i + 3]) == 'n'
    then i + 4 else i
  }

  /** The tag in both cases, a text that is not the tag, and one that is too short for it. */
  lemma TagExample()
    ensures SkipTag("json", 0) == 4 && SkipTag("JsOn", 0) == 4 && SkipTag("```json{", 3) == 7
    ensures SkipTag("jxon", 0) == 0 && SkipTag("jsox", 0) == 0 && SkipTag("jso", 0) == 0 && SkipTag("json", 1) == 1
    ensures Lower('A') == 'a' && Lower('Z') == 'z' && Lower('@') == '@' && Lower('[') == '[' && Lower('a') == 'a'
  {
  }

  function SkipSpaces(s: string, i: nat): (e: nat)
    requires i <= |s|
    ensures i <= e <= |s| && forall k :: i <= k < e ==> !IsMark(s, k) && s[k] != '{'
    decreases |s| - i
  {
    if i < |s| && IsSpace(s[i]) then SkipSpaces(s, i + 1) else i
  }

  /**
   * What the regular expression for the fence captures. Letters and white space are no backticks, so the match starts
   * at the first mark that has another one three or more positions later, which is the first mark of all or none.
   */
  function Captured(text: string): Option<string> {
    match FirstMark(text, 0)
    case None => None
    case Some(p) =>
      match FirstMark(text, p + 3)
      case None => None
      case Some(q) =>
        var e := SkipSpaces(text, SkipTag(text, p + 3));
        Some(text[e..q])
  }

  /** The text that the scanner is given. */
  function Region(raw: string): string {
    match Captured(Trim(raw))
    case None => Trim(raw)
    case Some(inner) => Trim(inner)
  }

  /** `indexOf` of the first brace. */
  function FirstBrace(s: string): (p: Option<nat>)
    ensures p.Some? ==> p.value < |s| && s[p.value] == '{'
  {
    if s == "" then None else if s[0] == '{' then Some(0) else Shifted(FirstBrace(s[1..]), 1)
  }

  lemma {:induction false} FirstBraceConcat(a: string, b: string)
    ensures FirstBrace(a + b) == if '{' in a then FirstBrace(a) else Shifted(FirstBrace(b), |a|)
    ensures FirstBrace(a).Some? <==> '{' in a
  {
    if a == "" {
      assert a + b == b;
    } else {
      assert a == [a[0]] + a[1..];
      assert (a + b)[1..] == a[1..] + b;
      FirstBraceConcat(a[1..], b);
    }
  }

  datatype Span = Span(start: nat, end: nat)

  /** First and last position of the object text, in the region. */
  function ObjectSpan(region: string): (span: Option<Span>)
    ensures span.Some? ==> span.value.start <= span.value.end < |region|
    ensures span.Some? ==> region[span.value.start] == '{' && region[span.value.end] == '}'
  {
    match FirstBrace(region)
    case None => None
    case Some(start) =>
      match ScanFrom(region, start, Outside(0))
      case None => None
      case Some(end) => Some(Span(start, end))
  }

  /** The text handed to the JSON parser. */
  function ObjectText(raw: string): Option<string> {
    var region := Region(raw);
    match ObjectSpan(region)
    case None => None
    case Some(span) => Some(region[span.start..span.end + 1])
  }

  /** In the region, the object is what gets extracted exactly when no brace comes before it. */
  lemma ObjectIsFound(junk: string, obj: Value, rest: string)
    requires obj.Object?
    ensures ObjectSpan(junk + Print(obj) + rest) == Some(Span(|junk|, |junk| + |Print(obj)| - 1)) <==> '{' !in junk
  {
    hide Scan, FirstBrace;
    var text := Print(obj);
    var region := junk + text + rest;
    assert text == "{" + text[1..];
    assert region == junk + (text + rest);
    assert region[|junk|..] == text + rest;
    FirstBraceConcat(junk, text + rest);
    BraceFirst(text + rest);
    ScanFindsObject(obj, rest);
  }

  lemma BraceFirst(s: string)
    requires s != "" && s[0] == '{'
    ensures FirstBrace(s) == Some(0)
  {
  }

  // ---------------------------------------------------------------- trimming around an object

  lemma TrimStartOf(s: string)
    ensures s == "" || !IsSpace(s[0]) ==> TrimStart(s) == s
    ensures s != "" && IsSpace(s[0]) ==> TrimStart(s) == TrimStart(s[1..])
  {
  }

  lemma {:induction false} TrimStartStops(a: string, b: string) returns (k: nat)
    requires b != "" && !IsSpace(b[0])
    ensures k <= |a| && TrimStart(a + b) == a[k..] + b
  {
    hide IsSpace, TrimStart;
    k := 0;
    TrimStartOf(a + b);
    if a == "" {
      assert a + b == b;
    } else if IsSpace(a[0]) {
      assert (a + b)[1..] == a[1..] + b;
      var n := TrimStartStops(a[1..], b);
      assert a[1..][n..] == a[n + 1..];
      k := n + 1;
    } else {
      assert a[0..] == a;
    }
  }

  lemma {:induction false} TrimEndStops(a: string, b: string) returns (k: nat)
    requires a != "" && !IsSpace(a[|a| - 1])
    ensures k <= |b| && TrimEnd(a + b) == a + b[..k]
  {
    if b == "" {
      k := 0;
      assert a + b == a;
    } else if IsSpace(b[|b| - 1]) {
      k := TrimEndStops(a, b[..|b| - 1]);
      assert (a + b)[..|a + b| - 1] == a + b[..|b| - 1];
      assert b[..|b| - 1][..k] == b[..k];
    } else {
      k := |b|;
    }
  }

  /** Trimming around a core that neither begins nor ends with white space. */
  lemma TrimAround(a: string, core: string, b: string) returns (k: nat, m: nat)
    requires core != "" && !IsSpace(core[0]) && !IsSpace(core[|core| - 1])
    ensures k <= |a| && m <= |b| && Trim(a + core + b) == a[k..] + core + b[..m]
  {
    hide TrimStart, TrimEnd;
    assert a + core + b == a + (core + b);
    k := TrimStartStops(a, core + b);
    m := TrimEndStops(a[k..] + core, b);
    assert a[k..] + (core + b) == a[k..] + core + b;
  }

  // ---------------------------------------------------------------- end to end

  lemma RegionHasObject(head: string, obj: Value, tail: string)
    requires obj.Object? && '{' !in head
    ensures var region := Trim(head + Print(obj) + tail);
            ObjectSpan(region).Some? && region[ObjectSpan(region).value.start..ObjectSpan(region).value.end + 1] == Print(obj)
  {
    hide ObjectSpan, Trim;
    assert Print(obj)[0] == '{' && Print(obj)[|Print(obj)| - 1] == '}';
    hide Print;
    var k, m := TrimAround(head, Print(obj), tail);
    var left := head[k..];
    ObjectIsFound(left, obj, tail[..m]);
    assert (left + Print(obj) + tail[..m])[|left|..|left| + |Print(obj)|] == Print(obj);
  }

  /**
   * Any answer without a code fence: junk without an opening brace, then a JSON object, then anything. What is parsed
   * is that object, whatever braces, quotes and escapes its strings hold.
   */
  lemma PlainAnswer(junk: string, obj: Value, rest: string)
    requires obj.Object? && '{' !in junk
    requires Captured(Trim(junk + Print(obj) + rest)).None?
    ensures ObjectText(junk + Print(obj) + rest) == Some(Print(obj))
  {
    hide Captured, Trim, ObjectSpan, Print;
    RegionHasObject(junk, obj, rest);
  }

  /** `s` can precede a mark without forming an earlier one. */
  predicate IsMarkFree(s: string) {
    forall i :: 0 <= i < |s| ==> !IsMark(s + "```", i)
  }

  /** A mark inside a middle part is a mark of the whole. */
  lemma MarkMoves(a: string, s: string, b: string, i: nat)
    requires i + 3 <= |s|
    ensures IsMark(a + s + b, |a| + i) <==> IsMark(s, i)
  {
    var text := a + s + b;
    assert forall j :: i <= j < i + 3 ==> text[|a| + j] == s[j];
  }

  lemma FirstMarkIs(text: string, from: nat, p: nat)
    requires from <= p && IsMark(text, p) && forall i :: from <= i < p ==> !IsMark(text, i)
    ensures FirstMark(text, from) == Some(p)
  {
    hide IsMark, FirstMark;
    assert FirstMark(text, from).Some?;
  }

  /** After `a`, a mark-free part and its mark: the first mark from there on is that one. */
  lemma NextMark(a: string, s: string, b: string)
    requires IsMarkFree(s)
    ensures FirstMark(a + (s + "```") + b, |a|) == Some(|a| + |s|)
  {
    hide FirstMark;
    var marked := s + "```";
    var text := a + marked + b;
    assert IsMark(marked, |s|);
    MarkMoves(a, marked, b, |s|);
    forall i | |a| <= i < |a| + |s| ensures !IsMark(text, i) {
      MarkMoves(a, marked, b, i - |a|);
    }
    FirstMarkIs(text, |a|, |a| + |s|);
  }

  lemma Regroup(a: string, m: string, b: string, c: string)
    ensures a + m + b + m + c == (a + m) + (b + m + c) == (a + m) + (b + m) + c
  {
  }

  lemma MarksOf(pre: string, body: string, post: string)
    requires IsMarkFree(pre) && IsMarkFree(body)
    ensures var text := pre + "```" + body + "```" + post;
            FirstMark(text, 0) == Some(|pre|) && FirstMark(text, |pre| + 3) == Some(|pre| + 3 + |body|)
  {
    hide *;
    Regroup(pre, "```", body, post);
    NextMark("", pre, body + "```" + post);
    assert "" + (pre + "```") == pre + "```";
    NextMark(pre + "```", body, post);
  }

  lemma MarkFreeSuffix(s: string, k: nat)
    requires IsMarkFree(s) && k <= |s|
    ensures IsMarkFree(s[k..])
  {
    forall i | 0 <= i < |s[k..]| ensures !IsMark(s[k..] + "```", i) {
      assert !IsMark(s + "```", i + k);
      assert forall j :: i <= j < i + 3 ==> (s[k..] + "```")[j] == (s + "```")[j + k];
    }
  }

  /** What is captured is the fenced part without its first few characters, none of them a brace. */
  lemma CapturedPart(text: string, p: nat, body: string) returns (k: nat)
    requires p + 3 <= |text|
    requires FirstMark(text, 0) == Some(p) && FirstMark(text, p + 3) == Some(p + 3 + |body|)
    requires text[p + 3..p + 3 + |body|] == body
    ensures k <= |body| && Captured(text) == Some(body[k..])
    ensures forall i :: 0 <= i < k ==> body[i] != '{'
  {
    hide FirstMark, SkipTag, SkipSpaces;
    var inner := p + 3;
    assert IsMark(text, inner + |body|);
    hide IsMark;
    var e := SkipSpaces(text, SkipTag(text, inner));
    k := e - inner;
    assert text[e..inner + |body|] == body[k..];
    assert forall i :: 0 <= i < k ==> body[i] == text[inner + i];
  }

  /** The region of an answer whose first fence encloses `body`. */
  lemma FencedRegion(pre: string, body: string, post: string) returns (k: nat)
    requires IsMarkFree(pre) && IsMarkFree(body)
    ensures k <= |body| && Region(pre + ("```" + body + "```") + post) == Trim(body[k..])
    ensures forall i :: 0 <= i < k ==> body[i] != '{'
  {
    hide Captured, FirstMark, Trim, IsMarkFree;
    var core := "```" + body + "```";
    var n, m := TrimAround(pre, core, post);
    MarkFreeSuffix(pre, n);
    MarksOf(pre[n..], body, post[..m]);
    var text := pre[n..] + "```" + body + "```" + post[..m];
    assert pre[n..] + core + post[..m] == text;
    var p := |pre[n..]|;
    assert text[p + 3..p + 3 + |body|] == body;
    k := CapturedPart(text, p, body);
  }

  /**
   * The same for an object inside a code fence, tagged `json` or not, when no mark comes before the fence or between
   * its two ends: what stands around the fence does not matter.
   */
  lemma FencedAnswer(pre: string, head: string, obj: Value, tail: string, post: string)
    requires obj.Object? && '{' !in head
    requires IsMarkFree(pre) && IsMarkFree(head + Print(obj) + tail)
    ensures ObjectText(pre + ("```" + (head + Print(obj) + tail) + "```") + post) == Some(Print(obj))
  {
    hide Region, Trim, ObjectSpan, IsMarkFree;
    assert Print(obj)[0] == '{';
    hide Print;
    var body := head + Print(obj) + tail;
    var k := FencedRegion(pre, body, post);
    assert body[|head|] == '{';
    assert body[k..] == head[k..] + Print(obj) + tail;
    RegionHasObject(head[k..], obj, tail);
  }

  /** A fence without a brace hides every object outside it, for one two marks inside a string of the object. */
  lemma FenceHidesObject(pre: string, body: string, post: string)
    requires IsMarkFree(pre) && IsMarkFree(body) && '{' !in body
    ensures ObjectText(pre + ("```" + body + "```") + post) == None
  {
    hide Region, IsMarkFree;
    var k := FencedRegion(pre, body, post);
    TrimIsPart(body[k..]);
    var region := Trim(body[k..]);
    assert '{' !in region;
    FirstBraceConcat(region, "");
  }

  /** The span of a region starts at its first brace. */
  lemma SpanStartsAtFirstBrace(region: string)
    requires ObjectSpan(region).Some?
    ensures var span := ObjectSpan(region).value;
            span.start <= span.end < |region| && '{' !in region[..span.start]
  {
    hide ScanFrom;
    var start := ObjectSpan(region).value.start;
    assert region == region[..start] + region[start..];
    FirstBraceConcat(region[..start], region[start..]);
  }

  /**
   * What is parsed is a given object exactly when the region that the fence leaves is that object with no brace in
   * front of it.
   */
  lemma ObjectIsParsedExactly(raw: string, obj: Value)
    requires obj.Object?
    ensures ObjectText(raw) == Some(Print(obj))
            <==> exists head, tail :: '{' !in head && Region(raw) == head + Print(obj) + tail
  {
    hide Region, ObjectSpan, Print, FirstBrace;
    var region := Region(raw);
    if head, tail :| '{' !in head && region == head + Print(obj) + tail {
      ObjectIsFound(head, obj, tail);
      assert region[|head|..|head| + |Print(obj)|] == Print(obj);
    }
    if ObjectText(raw) == Some(Print(obj)) {
      SpanStartsAtFirstBrace(region);
      var span := ObjectSpan(region).value;
      var head, tail := region[..span.start], region[span.end + 1..];
      assert region == head + region[span.start..span.end + 1] + tail;
    }
  }

  // ---------------------------------------------------------------- fence marks inside a string

  predicate IsPlainText(s: string) {
    forall c :: c in s ==> c as int >= 0x20 && c != '\"' && c != '\\'
  }

  function Plains(s: string): seq<Piece>
    requires IsPlainText(s)
  {
    if s == "" then []
    else
      assert s[0] in s;
      assert forall c :: c in s[1..] ==> c in s;
      [Plain(s[0])] + Plains(s[1..])
  }

  lemma {:induction false} PlainsPrint(s: string)
    requires IsPlainText(s)
    ensures PrintPieces(Plains(s)) == s
  {
    if s != "" {
      assert s[0] in s;
      assert forall c :: c in s[1..] ==> c in s;
      PlainsPrint(s[1..]);
      assert Plains(s)[1..] == Plains(s[1..]);
      assert s == [s[0]] + s[1..];
    }
  }

  /** `{"key":"text"}` */
  function OneEntry(key: string, text: string): Value
    requires IsPlainText(key) && IsPlainText(text)
  {
    Object("", Member("", Plains(key), "", "", Quoted(Plains(text)), "", NoMembers))
  }

  lemma Glue(k: string, v: string)
    ensures "{" + "" + ("" + k + "" + ":" + "" + v + "" + "" + "") + "}" == "{" + k + ":" + v + "}"
  {
    assert "" + k + "" + ":" + "" + v + "" + "" + "" == k + ":" + v;
  }

  lemma GlueQuotes(key: string, text: string)
    ensures "{" + ("\"" + key + "\"") + ":" + ("\"" + text + "\"") + "}" == "{\"" + key + "\":\"" + text + "\"}"
  {
    assert "{" + ("\"" + key + "\"") + ":" == "{\"" + key + "\":";
    assert "{\"" + key + "\":" + ("\"" + text + "\"") + "}" == "{\"" + key + "\":\"" + text + "\"}";
  }

  lemma StringPrints(s: string)
    requires IsPlainText(s)
    ensures PrintString(Plains(s)) == "\"" + s + "\""
  {
    PlainsPrint(s);
  }

  lemma OneEntryPrints(key: string, text: string)
    requires IsPlainText(key) && IsPlainText(text)
    ensures Print(OneEntry(key, text)) == "{\"" + key + "\":\"" + text + "\"}"
  {
    hide PrintString, Plains, IsPlainText;
    StringPrints(key);
    StringPrints(text);
    var k, v := PrintString(Plains(key)), PrintString(Plains(text));
    var members := OneEntry(key, text).members;
    assert PrintMembers(NoMembers) == "" && Print(members.value) == v;
    assert PrintMembers(members) == "" + k + "" + ":" + "" + v + "" + "" + "";
    Glue(k, v);
    GlueQuotes(key, text);
  }

  lemma MarkFreeBehind(a: string, s: string)
    requires '`' !in a && IsMarkFree(s)
    ensures IsMarkFree(a + s)
  {
    forall i | 0 <= i < |a + s| ensures !IsMark(a + s + "```", i) {
      if i < |a| {
        assert (a + s + "```")[i] == a[i];
      } else {
        assert a + s + "```" == a + (s + "```") + "";
        MarkMoves(a, s + "```", "", i - |a|);
      }
    }
  }

  /**
   * An object whose only text holds two fence marks with no brace between them is lost: taken for the content of a code
   * fence, the text between the marks holds no object.
   */
  lemma MarksInStringLoseObject(key: string, u: string, v: string, w: string)
    requires IsPlainText(key) && '`' !in key
    requires IsPlainText(u + "```" + v + "```" + w) && IsMarkFree(u) && IsMarkFree(v) && '{' !in v
    ensures ObjectText(Print(OneEntry(key, u + "```" + v + "```" + w))) == None
  {
    hide ObjectText, OneEntry, Print, IsPlainText, IsMarkFree;
    var text := u + "```" + v + "```" + w;
    OneEntryPrints(key, text);
    var front := "{\"" + key + "\":\"";
    MarkFreeBehind(front, u);
    FenceHidesObject(front + u, v, w + "\"}");
    assert front + text + "\"}" == (front + u) + ("```" + v + "```") + (w + "\"}");
  }

  lemma TrimIsPart(s: string)
    ensures forall c :: c in Trim(s) ==> c in s
  {
    hide TrimStart, TrimEnd;
    var a := TrimStart(s);
    assert a == s[|s| - |a|..];
    assert forall c :: c in a ==> c in s;
  }

  // ---------------------------------------------------------------- the filter

  /** A value of the parsed object, as far as the filter looks at it. */
  datatype Entry = TextEntry(text: string) | OtherEntry

  type Parser = string -> Option<map<string, Entry>>

  /** The entries that are kept: subtasks of known teams that are not blank. */
  function Kept(entries: map<string, Entry>, slugs: set<string>): map<string, string> {
    map k | k in entries && k in slugs && entries[k].TextEntry? && Trim(entries[k].text) != "" :: Trim(entries[k].text)
  }

  /** What an answer decomposes to, if anything is kept of it. */
  function Decomposed(parse: Parser, raw: string, slugs: set<string>): Option<map<string, string>> {
    match ObjectText(raw)
    case None => None
    case Some(json) =>
      match parse(json)
      case None => None
      case Some(entries) => if Kept(entries, slugs) == map[] then None else Some(Kept(entries, slugs))
  }

  /** `parseDecomposition`; `parse` is `JSON.parse` of an object text, `None` when it throws. */
  method ParseDecomposition(parse: Parser, raw: string, teamSlugs: seq<string>) returns (r: Option<map<string, string>>)
    ensures r == Decomposed(parse, raw, set s | s in teamSlugs :: s)
    ensures r.Some? ==>
              && r.value != map[] && ObjectText(raw).Some? && parse(ObjectText(raw).value).Some?
              && var entries := parse(ObjectText(raw).value).value;
              forall k :: (k in r.value <==>
                             k in entries && k in teamSlugs && entries[k].TextEntry? && Trim(entries[k].text) != "")
                          && (k in r.value ==> r.value[k] == Trim(entries[k].text))
    ensures r.None? && ObjectText(raw).Some? && parse(ObjectText(raw).value).Some? ==>
              var entries := parse(ObjectText(raw).value).value;
              forall k :: k in entries && k in teamSlugs && entries[k].TextEntry? ==> Trim(entries[k].text) == ""
  {
    hide Scan, Region, Kept, FirstBrace, ScanFrom;
    var text := Region(raw);
    var start := FirstBrace(text);
    if start.None? {
      return None;
    }
    var end := FindEnd(text, start.value);
    if end == -1 {
      return None;
    }
    var parsed := parse(text[start.value..end + 1]);
    if parsed.None? {
      return None;
    }
    var out := Filter(parsed.value, set s | s in teamSlugs :: s);
    r := if out != map[] then Some(out) else None;
  }

  /** The loop over the entries. */
  method Filter(entries: map<string, Entry>, slugs: set<string>) returns (out: map<string, string>)
    ensures out == Kept(entries, slugs)
    ensures forall k :: k in out <==> k in entries && k in slugs && entries[k].TextEntry? && Trim(entries[k].text) != ""
    ensures forall k :: k in out ==> out[k] == Trim(entries[k].text)
  {
    hide Trim;
    out := map[];
    var rest := entries.Keys;
    while rest != {}
      invariant rest <= entries.Keys
      invariant forall k :: k in out <==> k !in rest && k in Kept(entries, slugs)
      invariant forall k :: k in out ==> out[k] == Kept(entries, slugs)[k]
      decreases |rest|
    {
      var k :| k in rest;
      var v := entries[k];
      if k in slugs && v.TextEntry? && Trim(v.text) != "" {
        out := out[k := Trim(v.text)];
      }
      rest := rest - {k};
    }
  }
}
