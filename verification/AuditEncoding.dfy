/** The rows of the audit log and the two byte encodings that are fed to SHA-256. */
module AuditEncoding {
  import opened Text

  /** SHA-256 followed by `digest('hex')`. It stays a parameter of everything that hashes. */
  type Hasher = Bytes -> string

  const GENESIS_HASH := "0000000000000000000000000000000000000000000000000000000000000000"
  const LEGACY_EPOCH_ID := "legacy"
  const CANONICAL_DIGEST_VERSION := "nco-audit-canonical-v1"
  const CHECKPOINT_HASH_VERSION := "nco-audit-checkpoint-v1"

  datatype Severity = Debug | Info | Warn | Critical {
    function Name(): (s: string)
      ensures '|' !in s
    {
      match this
      case Debug => "debug"
      case Info => "info"
      case Warn => "warn"
      case Critical => "critical"
    }
  }

  datatype Row = Row(
    rowid: nat,
    chainSeq: nat,
    id: string,
    timestamp: int,
    actor: string,
    action: string,
    target: Option<string>,
    metadata: string,
    severity: Severity,
    hash: string,
    prevHash: string,
    epochId: string)

  /** No two different inputs among `inputs` share a hash: all that the tamper results need of SHA-256. */
  ghost predicate CollisionFree(h: Hasher, inputs: set<Bytes>) {
    forall x, y :: x in inputs && y in inputs && h(x) == h(y) ==> x == y
  }

  lemma CollisionFreeMeaning(h: Hasher, x: Bytes, y: Bytes)
    ensures CollisionFree(h, {x, y}) <==> (x != y ==> h(x) != h(y))
  {
    assert x in {x, y} && y in {x, y};
  }

  /** The fixed texts that are hashed or stored: 64 zeros in front of the first row, the scope of old rows, severities. */
  lemma FixedTexts()
    ensures |GENESIS_HASH| == 64 && GENESIS_HASH == "0000000000000000000000000000000000000000000000000000000000000000"
    ensures LEGACY_EPOCH_ID == "legacy"
    ensures [Debug.Name(), Info.Name(), Warn.Name(), Critical.Name()] == ["debug", "info", "warn", "critical"]
  {
  }

  /** Hexadecimal digests never contain the field separator. */
  ghost predicate DigestsArePipeFree(h: Hasher) {
    forall x :: '|' !in h(x)
  }

  // ---------------------------------------------------------------- the entry hash

  function OrEmpty(target: Option<string>): string {
    match target
    case None => ""
    case Some(t) => t
  }

  function Preimage(r: Row): string {
    r.id + "|" + (IntText(r.timestamp) + "|" + (r.actor + "|" + (r.action + "|" + (OrEmpty(r.target) + "|"
    + (((r.metadata + "|") + r.severity.Name() + "|") + r.prevHash)))))
  }

  function RowHash(h: Hasher, r: Row): string {
    h(Utf8(Preimage(r)))
  }

  function Preimages(rows: seq<Row>): set<Bytes> {
    set i | 0 <= i < |rows| :: Utf8(Preimage(rows[i]))
  }

  /** A separator that occurs in neither left part splits both texts at the same place. */
  lemma SplitFirst(a: string, x: string, b: string, y: string)
    requires '|' !in a && '|' !in b
    requires a + "|" + x == b + "|" + y
    ensures a == b && x == y
  {
    var s := a + "|" + x;
    assert s[|a|] == '|' && s[|b|] == '|';
    assert |a| == |b|;
    assert a == s[..|a|] && b == s[..|b|];
    assert x == s[|a| + 1..] && y == s[|b| + 1..];
  }

  /** The same from the right: this is what lets metadata contain the separator. */
  lemma SplitLast(a: string, x: string, b: string, y: string)
    requires '|' !in x && '|' !in y
    requires a + "|" + x == b + "|" + y
    ensures a == b && x == y
  {
    var s := a + "|" + x;
    assert s[|a|] == '|' && s[|b|] == '|';
    assert |a| == |b|;
    assert a == s[..|a|] && b == s[..|b|];
    assert x == s[|a| + 1..] && y == s[|b| + 1..];
  }

  /** Everything before the last separator. */
  function PreimageHead(r: Row): string {
    r.id + "|" + IntText(r.timestamp) + "|" + r.actor + "|" + r.action + "|" + OrEmpty(r.target) + "|"
    + r.metadata + "|" + r.severity.Name()
  }

  /** `fields.join('|')` */
  function Joined(fields: seq<string>): string
    requires fields != []
  {
    if |fields| == 1 then fields[0] else fields[0] + "|" + Joined(fields[1..])
  }

  /** The hashed text lists id, time, actor, action, target, metadata, severity and previous hash, in this order. */
  lemma PreimageIsJoined(r: Row)
    ensures Preimage(r) == Joined([r.id, IntText(r.timestamp), r.actor, r.action, OrEmpty(r.target), r.metadata,
                                   r.severity.Name(), r.prevHash])
  {
    hide IntText, OrEmpty, Severity.Name;
    var fields := [r.id, IntText(r.timestamp), r.actor, r.action, OrEmpty(r.target), r.metadata, r.severity.Name(), r.prevHash];
    PreimageNested(r);
    JoinedEight(fields);
  }

  lemma JoinedEight(f: seq<string>)
    requires |f| == 8
    ensures Joined(f) == f[0] + "|" + (f[1] + "|" + (f[2] + "|" + (f[3] + "|" + (f[4] + "|"
                         + (f[5] + "|" + (f[6] + "|" + f[7]))))))
  {
    assert f[1..][1..] == f[2..] && f[2..][1..] == f[3..] && f[3..][1..] == f[4..] && f[4..][1..] == f[5..];
    assert f[5..][1..] == f[6..] && f[6..][1..] == f[7..];
    assert Joined(f[7..]) == f[7];
    assert Joined(f[6..]) == f[6] + "|" + f[7];
    assert Joined(f[5..]) == f[5] + "|" + Joined(f[6..]);
    assert Joined(f[4..]) == f[4] + "|" + Joined(f[5..]);
    assert Joined(f[3..]) == f[3] + "|" + Joined(f[4..]);
    assert Joined(f[2..]) == f[2] + "|" + Joined(f[3..]);
    assert Joined(f[1..]) == f[1] + "|" + Joined(f[2..]);
  }

  lemma PreimageEndsInPrevHash(r: Row)
    ensures Preimage(r) == PreimageHead(r) + "|" + r.prevHash
  {
  }

  lemma PreimageDeterminesPrevHash(a: Row, b: Row)
    requires Preimage(a) == Preimage(b)
    requires '|' !in a.prevHash && '|' !in b.prevHash
    ensures a.prevHash == b.prevHash
  {
    PreimageEndsInPrevHash(a);
    PreimageEndsInPrevHash(b);
    SplitLast(PreimageHead(a), a.prevHash, PreimageHead(b), b.prevHash);
  }

  predicate SeparatorFree(r: Row) {
    '|' !in r.id && '|' !in r.actor && '|' !in r.action && '|' !in OrEmpty(r.target) && '|' !in r.prevHash
  }

  /** Equal in every hashed field; a null target hashes like the empty one. */
  predicate SameHashedFields(a: Row, b: Row) {
    && a.id == b.id && a.timestamp == b.timestamp && a.actor == b.actor && a.action == b.action
    && OrEmpty(a.target) == OrEmpty(b.target) && a.metadata == b.metadata && a.severity == b.severity
    && a.prevHash == b.prevHash
  }

  /** The `|`-joined text is uniquely readable although metadata may contain `|`. */
  lemma PreimageDeterminesFields(a: Row, b: Row)
    requires SeparatorFree(a) && SeparatorFree(b)
    requires Preimage(a) == Preimage(b)
    ensures SameHashedFields(a, b)
  {
    var a5 := (a.metadata + "|" + a.severity.Name()) + "|" + a.prevHash;
    var b5 := (b.metadata + "|" + b.severity.Name()) + "|" + b.prevHash;
    assert a5 == ((a.metadata + "|") + a.severity.Name() + "|") + a.prevHash;
    assert b5 == ((b.metadata + "|") + b.severity.Name() + "|") + b.prevHash;
    var a4, b4 := OrEmpty(a.target) + "|" + a5, OrEmpty(b.target) + "|" + b5;
    var a3, b3 := a.action + "|" + a4, b.action + "|" + b4;
    var a2, b2 := a.actor + "|" + a3, b.actor + "|" + b3;
    var a1, b1 := IntText(a.timestamp) + "|" + a2, IntText(b.timestamp) + "|" + b2;
    SplitFirst(a.id, a1, b.id, b1);
    SplitFirst(IntText(a.timestamp), a2, IntText(b.timestamp), b2);
    IntTextInjective(a.timestamp, b.timestamp);
    SplitFirst(a.actor, a3, b.actor, b3);
    SplitFirst(a.action, a4, b.action, b4);
    SplitFirst(OrEmpty(a.target), a5, OrEmpty(b.target), b5);
    SplitLast(a.metadata + "|" + a.severity.Name(), a.prevHash, b.metadata + "|" + b.severity.Name(), b.prevHash);
    SplitLast(a.metadata, a.severity.Name(), b.metadata, b.severity.Name());
    assert a.severity.Name()[0] == b.severity.Name()[0];
  }

  // ---------------------------------------------------------------- which rows are ambiguous

  /** How many separators a text holds. */
  function Separators(s: string): (n: nat)
    ensures n == 0 <==> '|' !in s
  {
    if s == "" then 0 else
      assert s == s[..|s| - 1] + [s[|s| - 1]];
      Separators(s[..|s| - 1]) + if s[|s| - 1] == '|' then 1 else 0
  }

  lemma {:induction false} SeparatorsConcat(a: string, b: string)
    ensures Separators(a + b) == Separators(a) + Separators(b)
  {
    if b == "" {
      assert a + b == a;
    } else {
      assert (a + b)[..|a + b| - 1] == a + b[..|b| - 1];
      SeparatorsConcat(a, b[..|b| - 1]);
    }
  }

  /** One more field in front. */
  lemma SeparatorsJoin(field: string, rest: string)
    ensures Separators(field + "|" + rest) == Separators(field) + 1 + Separators(rest)
  {
    SeparatorsConcat(field + "|", rest);
    SeparatorsConcat(field, "|");
    assert "|"[..0] == "";
  }

  /** The separators inside the fields that are free text. */
  function InnerSeparators(r: Row): nat {
    Separators(r.id) + Separators(r.actor) + Separators(r.action) + Separators(OrEmpty(r.target))
    + Separators(r.metadata) + Separators(r.prevHash)
  }

  /** The joined text with its fields nested to the right. */
  lemma PreimageNested(r: Row)
    ensures Preimage(r)
            == r.id + "|" + (IntText(r.timestamp) + "|" + (r.actor + "|" + (r.action + "|" + (OrEmpty(r.target) + "|"
               + (r.metadata + "|" + (r.severity.Name() + "|" + r.prevHash))))))
  {
  }

  lemma PreimageSeparators(r: Row)
    ensures Separators(Preimage(r)) == InnerSeparators(r) + 7
  {
    hide Preimage, Separators;
    PreimageNested(r);
    var e7 := r.severity.Name() + "|" + r.prevHash;
    var e6 := r.metadata + "|" + e7;
    var e5 := OrEmpty(r.target) + "|" + e6;
    var e4 := r.action + "|" + e5;
    var e3 := r.actor + "|" + e4;
    var e2 := IntText(r.timestamp) + "|" + e3;
    SeparatorsJoin(r.severity.Name(), r.prevHash);
    SeparatorsJoin(r.metadata, e7);
    SeparatorsJoin(OrEmpty(r.target), e6);
    SeparatorsJoin(r.action, e5);
    SeparatorsJoin(r.actor, e4);
    SeparatorsJoin(IntText(r.timestamp), e3);
    SeparatorsJoin(r.id, e2);
  }

  /** Another row with the same hashed text. */
  ghost predicate IsAmbiguous(a: Row) {
    exists b: Row :: Preimage(a) == Preimage(b) && !SameHashedFields(a, b)
  }

  predicate HasInnerSeparator(r: Row) {
    '|' in r.actor || '|' in r.action || '|' in OrEmpty(r.target) || '|' in r.metadata
  }

  /** The text after a separator can as well be the start of the next field, or the text before it the end of the last. */
  function Shifted(a: Row, u: string, v: string): Row {
    if a.actor == u + "|" + v then a.(actor := u, action := v + "|" + a.action)
    else if a.action == u + "|" + v then a.(action := u, target := Some(v + "|" + OrEmpty(a.target)))
    else if OrEmpty(a.target) == u + "|" + v then a.(target := Some(u), metadata := v + "|" + a.metadata)
    else a.(target := Some(OrEmpty(a.target) + "|" + u), metadata := v)
  }

  lemma ShiftedHashesAlike(a: Row, u: string, v: string)
    requires u + "|" + v in [a.actor, a.action, OrEmpty(a.target), a.metadata]
    ensures Preimage(Shifted(a, u, v)) == Preimage(a) && !SameHashedFields(a, Shifted(a, u, v))
  {
    var b := Shifted(a, u, v);
    PreimageNested(a);
    PreimageNested(b);
    hide Preimage;
    var tail := a.severity.Name() + "|" + a.prevHash;
    if a.actor == u + "|" + v {
      Regroup(u, v, a.action, OrEmpty(a.target) + "|" + (a.metadata + "|" + tail));
    } else if a.action == u + "|" + v {
      Regroup(u, v, OrEmpty(a.target), a.metadata + "|" + tail);
    } else if OrEmpty(a.target) == u + "|" + v {
      Regroup(u, v, a.metadata, tail);
    } else {
      Regroup(OrEmpty(a.target), u, v, tail);
    }
  }

  lemma Regroup(u: string, v: string, w: string, rest: string)
    ensures (u + "|" + v) + "|" + (w + "|" + rest) == u + "|" + ((v + "|" + w) + "|" + rest)
    ensures u + "|" + ((v + "|" + w) + "|" + rest) == (u + "|" + v) + "|" + (w + "|" + rest)
    ensures |u| < |u + "|" + v|
  {
  }

  lemma SplitAtSeparator(s: string) returns (u: string, v: string)
    requires '|' in s
    ensures s == u + "|" + v
  {
    var k :| 0 <= k < |s| && s[k] == '|';
    u, v := s[..k], s[k + 1..];
  }

  /**
   * Exactly the rows with a separator in actor, action, target or metadata share their hashed text with another row,
   * which then can be taken with the same id, time, severity and previous hash. Metadata counts as well: what follows
   * its separator may be all of it, if what precedes it belongs to a target with a separator.
   */
  lemma AmbiguousExactly(a: Row)
    requires '|' !in a.id && '|' !in a.prevHash
    ensures IsAmbiguous(a) <==> HasInnerSeparator(a)
    ensures HasInnerSeparator(a) ==>
              exists b: Row :: Preimage(a) == Preimage(b) && !SameHashedFields(a, b) && b.id == a.id
                               && b.timestamp == a.timestamp && b.severity == a.severity && b.prevHash == a.prevHash
  {
    hide Preimage, SameHashedFields;
    if HasInnerSeparator(a) {
      var s := if '|' in a.actor then a.actor else if '|' in a.action then a.action
               else if '|' in OrEmpty(a.target) then OrEmpty(a.target) else a.metadata;
      var u, v := SplitAtSeparator(s);
      ShiftedHashesAlike(a, u, v);
      var b := Shifted(a, u, v);
      assert b.id == a.id && b.timestamp == a.timestamp && b.severity == a.severity && b.prevHash == a.prevHash;
    } else if IsAmbiguous(a) {
      var b: Row :| Preimage(a) == Preimage(b) && !SameHashedFields(a, b);
      PreimageSeparators(a);
      PreimageSeparators(b);
      PreimageDeterminesFields(a, b);
      assert false;
    }
  }

  // ---------------------------------------------------------------- the canonical digest

  function NullText(target: Option<string>): string {
    match target
    case None => "<null>"
    case Some(t) => t
  }

  /** `updateLengthPrefixed`: the byte length, a colon, the bytes. */
  function LengthPrefixed(text: string): Bytes {
    Utf8(NatText(|Utf8(text)|) + ":") + Utf8(text)
  }

  function PrefixedFields(fields: seq<string>): Bytes {
    if fields == [] then [] else LengthPrefixed(fields[0]) + PrefixedFields(fields[1..])
  }

  function CanonicalFields(r: Row): (fields: seq<string>)
    ensures |fields| == 11
  {
    [IntText(r.chainSeq), r.id, IntText(r.timestamp), r.actor, r.action, NullText(r.target), r.metadata,
     r.severity.Name(), r.hash, r.prevHash, r.epochId]
  }

  /** The digested fields of one entry and the length prefix of one field, spelled out. */
  lemma CanonicalExample()
    ensures CanonicalFields(Row(7, 3, "id", 9, "alice", "login", None, "{}", Warn, "own", "before", "epoch"))
            == ["3", "id", "9", "alice", "login", "<null>", "{}", "warn", "own", "before", "epoch"]
    ensures LengthPrefixed("ab") == [50, 58, 97, 98] && PrefixedFields(["ab", ""]) == [50, 58, 97, 98, 48, 58]
  {
    assert Utf8("ab") == [97, 98] by {
      assert "ab"[1..] == "b";
    }
    assert Utf8("2:") == [50, 58] by {
      assert "2:"[1..] == ":";
    }
    assert Utf8("0:") == [48, 58] by {
      assert "0:"[1..] == ":";
    }
  }

  const NEWLINE: byte := 10

  function RowBytes(r: Row): Bytes {
    PrefixedFields(CanonicalFields(r)) + [NEWLINE]
  }

  function RowsBytes(rows: seq<Row>): Bytes {
    if rows == [] then [] else RowBytes(rows[0]) + RowsBytes(rows[1..])
  }

  /** All bytes that a canonical digest over `rows` has hashed. */
  function CanonicalBytes(rows: seq<Row>): Bytes {
    Utf8(CANONICAL_DIGEST_VERSION + "\n") + RowsBytes(rows)
  }

  /** A line with the version, and a line for each row. */
  lemma CanonicalLines(r: Row, s: Row)
    ensures CanonicalBytes([r, s]) == Utf8("nco-audit-canonical-v1\n") + PrefixedFields(CanonicalFields(r)) + [10]
                                      + PrefixedFields(CanonicalFields(s)) + [10]
  {
    hide PrefixedFields, CanonicalFields, Utf8;
    assert CANONICAL_DIGEST_VERSION + "\n" == "nco-audit-canonical-v1\n";
    assert [r, s][1..] == [s] && [s][1..] == [];
    assert RowsBytes([s]) == RowBytes(s) + [];
    var header := Utf8(CANONICAL_DIGEST_VERSION + "\n");
    assert header + (RowBytes(r) + RowBytes(s)) == header + RowBytes(r) + RowBytes(s);
  }

  lemma {:induction false} RowsBytesSnoc(rows: seq<Row>, r: Row)
    ensures RowsBytes(rows + [r]) == RowsBytes(rows) + RowBytes(r)
  {
    hide RowBytes;
    if rows == [] {
      assert rows + [r] == [r];
      assert RowsBytes([r][1..]) == [];
      assert RowBytes(r) + [] == RowBytes(r);
    } else {
      assert (rows + [r])[1..] == rows[1..] + [r];
      RowsBytesSnoc(rows[1..], r);
      assert RowBytes(rows[0]) + (RowsBytes(rows[1..]) + RowBytes(r)) == RowsBytes(rows) + RowBytes(r);
    }
  }

  /** The running digest can be extended row by row. */
  lemma CanonicalBytesSnoc(rows: seq<Row>, r: Row)
    ensures CanonicalBytes(rows + [r]) == CanonicalBytes(rows) + RowBytes(r)
  {
    hide Utf8;
    RowsBytesSnoc(rows, r);
    assert CanonicalBytes(rows + [r]) == CanonicalBytes(rows) + RowBytes(r);
  }

  // ---------------------------------------------------------------- a decoder for the digest input

  const COLON: byte := 58
  const ZERO: byte := 48

  /** Read a decimal numeral up to the colon that ends it. */
  function ReadLength(acc: nat, bs: Bytes): Option<(nat, Bytes)>
    decreases bs
  {
    if bs == [] then None
    else if bs[0] == COLON then Some((acc, bs[1..]))
    else if ZERO <= bs[0] <= ZERO + 9 then ReadLength(acc * 10 + (bs[0] - ZERO) as nat, bs[1..])
    else None
  }

  function ReadField(bs: Bytes): Option<(Bytes, Bytes)> {
    match ReadLength(0, bs)
    case None => None
    case Some((n, rest)) => if n <= |rest| then Some((rest[..n], rest[n..])) else None
  }

  function ReadFields(k: nat, bs: Bytes): (r: Option<(seq<string>, Bytes)>)
    ensures r.Some? ==> |r.value.1| <= |bs|
  {
    if k == 0 then Some(([], bs))
    else
      match ReadField(bs)
      case None => None
      case Some((field, rest)) =>
        ReadLengthShrinks(0, bs);
        match FromUtf8(field)
        case None => None
        case Some(text) =>
          match ReadFields(k - 1, rest)
          case None => None
          case Some((texts, end)) => Some(([text] + texts, end))
  }

  lemma ReadLengthShrinks(acc: nat, bs: Bytes)
    ensures ReadLength(acc, bs).Some? ==> |ReadLength(acc, bs).value.1| < |bs|
    decreases bs
  {
  }

  function ReadRows(bs: Bytes): Option<seq<seq<string>>>
    decreases |bs|
  {
    if bs == [] then Some([])
    else
      match ReadFields(11, bs)
      case None => None
      case Some((fields, rest)) =>
        if rest == [] || rest[0] != NEWLINE then None
        else
          match ReadRows(rest[1..])
          case None => None
          case Some(rows) => Some([fields] + rows)
  }

  lemma {:induction false} ReadsBackLength(n: nat, rest: Bytes)
    ensures ReadLength(0, Utf8(NatText(n)) + rest) == ReadLength(n, rest)
  {
    if n < 10 {
      Utf8Ascii(NatText(n));
      assert (Utf8(NatText(n)) + rest)[1..] == rest;
    } else {
      var d := [Digit(n % 10)];
      Utf8Concat(NatText(n / 10), d);
      Utf8Ascii(d);
      var more := Utf8(d) + rest;
      assert Utf8(NatText(n)) + rest == Utf8(NatText(n / 10)) + more;
      ReadsBackLength(n / 10, more);
      assert more[1..] == rest;
    }
  }

  lemma ColonEndsLength(n: nat, rest: Bytes)
    ensures ReadLength(n, [COLON] + rest) == Some((n, rest))
  {
    assert ([COLON] + rest)[1..] == rest;
  }

  lemma ReadsBackField(text: string, rest: Bytes)
    ensures ReadField(LengthPrefixed(text) + rest) == Some((Utf8(text), rest))
  {
    hide Utf8, NatText, ReadLength;
    var t := Utf8(text);
    var digits, colon := Utf8(NatText(|t|)), Utf8(":");
    Utf8Concat(NatText(|t|), ":");
    Utf8Ascii(":");
    var more := colon + (t + rest);
    assert ((digits + colon) + t) + rest == digits + more;
    ReadsBackLength(|t|, more);
    assert more == [COLON] + (t + rest);
    ColonEndsLength(|t|, t + rest);
    assert (t + rest)[..|t|] == t && (t + rest)[|t|..] == rest;
  }

  lemma {:induction false} ReadsBackFields(fields: seq<string>, rest: Bytes)
    ensures ReadFields(|fields|, PrefixedFields(fields) + rest) == Some((fields, rest))
  {
    if fields == [] {
      assert PrefixedFields(fields) + rest == rest;
    } else {
      var more := PrefixedFields(fields[1..]) + rest;
      assert PrefixedFields(fields) + rest == LengthPrefixed(fields[0]) + more;
      ReadsBackField(fields[0], more);
      Utf8RoundTrip(fields[0]);
      ReadsBackFields(fields[1..], more[|PrefixedFields(fields[1..])|..]);
      assert more[|PrefixedFields(fields[1..])|..] == rest;
      assert fields == [fields[0]] + fields[1..];
    }
  }

  function FieldTable(rows: seq<Row>): seq<seq<string>> {
    if rows == [] then [] else [CanonicalFields(rows[0])] + FieldTable(rows[1..])
  }

  /** The decoder is a left inverse of the digest input. */
  lemma {:induction false} DigestInputDecodes(rows: seq<Row>)
    ensures ReadRows(RowsBytes(rows)) == Some(FieldTable(rows))
  {
    if rows == [] {
    } else {
      var fields := CanonicalFields(rows[0]);
      var rest := [NEWLINE] + RowsBytes(rows[1..]);
      assert RowsBytes(rows) == PrefixedFields(fields) + rest;
      ReadsBackFields(fields, rest);
      assert rest[1..] == RowsBytes(rows[1..]);
      DigestInputDecodes(rows[1..]);
    }
  }

  /** Equal in all eleven digested fields, null being written as `<null>`. */
  predicate SameDigestedFields(a: Row, b: Row) {
    && a.chainSeq == b.chainSeq && a.id == b.id && a.timestamp == b.timestamp && a.actor == b.actor
    && a.action == b.action && NullText(a.target) == NullText(b.target) && a.metadata == b.metadata
    && a.severity == b.severity && a.hash == b.hash && a.prevHash == b.prevHash && a.epochId == b.epochId
  }

  lemma FieldsDetermineRow(a: Row, b: Row)
    requires CanonicalFields(a) == CanonicalFields(b)
    ensures SameDigestedFields(a, b)
  {
    var x, y := CanonicalFields(a), CanonicalFields(b);
    assert x[0] == y[0] && x[1] == y[1] && x[2] == y[2] && x[3] == y[3] && x[4] == y[4] && x[5] == y[5];
    assert x[6] == y[6] && x[7] == y[7] && x[8] == y[8] && x[9] == y[9] && x[10] == y[10];
    IntTextInjective(a.chainSeq, b.chainSeq);
    IntTextInjective(a.timestamp, b.timestamp);
    assert a.severity.Name()[0] == b.severity.Name()[0];
  }

  lemma {:induction false} FieldTableDeterminesRows(a: seq<Row>, b: seq<Row>)
    requires FieldTable(a) == FieldTable(b)
    ensures |a| == |b|
    ensures forall i :: 0 <= i < |a| ==> SameDigestedFields(a[i], b[i])
  {
    if a != [] && b != [] {
      assert FieldTable(a)[0] == FieldTable(b)[0];
      assert FieldTable(a)[1..] == FieldTable(a[1..]) && FieldTable(b)[1..] == FieldTable(b[1..]);
      FieldsDetermineRow(a[0], b[0]);
      FieldTableDeterminesRows(a[1..], b[1..]);
      forall i | 0 <= i < |a| ensures SameDigestedFields(a[i], b[i]) {
        if i > 0 {
          assert a[i] == a[1..][i - 1] && b[i] == b[1..][i - 1];
        }
      }
    }
  }

  /** A canonical digest pins the whole table: equal digests, equal rows (up to how null is written). */
  lemma EqualDigestsMeanEqualRows(h: Hasher, a: seq<Row>, b: seq<Row>)
    requires CollisionFree(h, {CanonicalBytes(a), CanonicalBytes(b)})
    requires h(CanonicalBytes(a)) == h(CanonicalBytes(b))
    ensures |a| == |b|
    ensures forall i :: 0 <= i < |a| ==> SameDigestedFields(a[i], b[i])
  {
    var header := Utf8(CANONICAL_DIGEST_VERSION + "\n");
    assert CanonicalBytes(a)[|header|..] == RowsBytes(a);
    assert CanonicalBytes(b)[|header|..] == RowsBytes(b);
    DigestInputDecodes(a);
    DigestInputDecodes(b);
    FieldTableDeterminesRows(a, b);
  }
}
